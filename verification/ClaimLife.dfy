/** What a claim that a call returned says, and what the later calls make of it. */
module ClaimLife {
  import opened Options
  import opened Tables
  import opened PublicQueue
  import opened QueueInvariant
  import opened LeaseQueue
  import opened Steps
  import Text
  import Workers = WorkerStore

  // ------------------------------------------------------- public delivery

  /** `claim_public_delivery` took the store from `db` to `db'` and returned `c`. */
  predicate ReturnsPublic(db: Db, worker: Id, now: Instant, ttl: int, db': Db, c: PublicClaim) {
    && !BadLease(now, ttl)
    && exists p :: p in Recover(db, now).outbox && ClaimsRow(Recover(db, now), p, worker, now, now + ttl, db', c)
  }

  predicate ClaimsRow(db1: Db, p: Id, worker: Id, now: Instant, expires: Instant, db': Db, c: PublicClaim)
    requires p in db1.outbox
  {
    IsNext(db1, now, p) && Workers.Claimed(db1, p, worker, now, expires, db', Ok(Some(c)))
  }

  /** The claim repeats its row. */
  predicate ClaimRepeats(c: PublicClaim, r: PublicRow) {
    && c.turn == r.turn && Canonical(c.chunk) == r.content.chunkJson && c.idempotencyKey == r.content.idempotencyKey
    && c.targetBindingHash == r.content.terms.targetBindingHash && c.channelId == r.content.channelId
    && c.key == r.content.key && c.receiptHash == r.content.receiptHash && c.deadline == r.content.deadline
  }

  /** The row is leased to the claim's worker, from `now` until the claim expires. */
  predicate LeasedTo(r: PublicRow, c: PublicClaim, now: Instant) {
    && r.status == Leased && r.owner == Some(c.workerId) && r.fencingToken == c.fencingToken
    && r.acquiredAt == Some(now) && r.expiresAt == Some(c.leaseExpiresAt)
  }

  /** A returned claim repeats the row it leased, under the row's next token. */
  lemma ReturnedClaim(db: Db, worker: Id, now: Instant, ttl: int, db': Db, c: PublicClaim)
    requires ReturnsPublic(db, worker, now, ttl, db', c)
    ensures c.rowId in db.outbox && c.rowId in db'.outbox
    ensures ClaimRepeats(c, db.outbox[c.rowId]) && ClaimRepeats(c, db'.outbox[c.rowId])
    ensures LeasedTo(db'.outbox[c.rowId], c, now)
    ensures c.workerId == worker && c.leaseExpiresAt == now + ttl && c.fencingToken == db.outbox[c.rowId].fencingToken + 1
    ensures now < c.deadline && now < c.leaseExpiresAt
    ensures db'.outbox[c.rowId].claimCount == db.outbox[c.rowId].claimCount + 1
  {
    var db1 := Recover(db, now);
    var p :| p in db1.outbox && ClaimsRow(db1, p, worker, now, now + ttl, db', c);
  }

  /** The position of a row in the query's order: occurred_at, lead_key, state_version, chunk_index. */
  predicate NoLater(e: EventRow, r: PublicRow, f: EventRow, q: PublicRow) {
    || e.occurredAt < f.occurredAt
    || (e.occurredAt == f.occurredAt
        && (|| Text.Less(r.turn.lead.text, q.turn.lead.text)
            || (r.turn.lead == q.turn.lead
                && (e.version < f.version || (e.version == f.version && r.content.chunkIndex <= q.content.chunkIndex)))))
  }

  /** Of all rows that could be claimed, the claimed one comes first. */
  lemma ReturnedClaimIsFirst(db: Db, worker: Id, now: Instant, ttl: int, db': Db, c: PublicClaim, q: Id)
    requires ReturnsPublic(db, worker, now, ttl, db', c) && Eligible(Recover(db, now), now, q)
    ensures c.rowId in db.outbox && q in db.outbox && c.turn in db.events && db.outbox[q].turn in db.events
    ensures NoLater(db.events[c.turn], db.outbox[c.rowId], db.events[db.outbox[q].turn], db.outbox[q])
  {
    var db1 := Recover(db, now);
    var p :| p in db1.outbox && ClaimsRow(db1, p, worker, now, now + ttl, db', c);
    assert !Before(db1, q, p);
    Text.LessIsTotal(db1.outbox[p].turn.lead.text, db1.outbox[q].turn.lead.text);
  }

  lemma ReturningKeepsInv(db: Db, worker: Id, now: Instant, ttl: int, db': Db, c: PublicClaim)
    requires QueueInv(db) && ReturnsPublic(db, worker, now, ttl, db', c)
    ensures QueueInv(db')
  {
    var p := RowClaimed(db, worker, now, ttl, db', c);
    RecoverKeepsInv(db, now);
    LeasedKeepsInv(Recover(db, now), p, worker, now, now + ttl, db');
  }

  lemma LeasedKeepsInv(mid: Db, p: Id, worker: Id, now: Instant, expires: Instant, db': Db)
    requires QueueInv(mid) && Eligible(mid, now, p) && db' == Leasing(mid, p, worker, now, expires)
    ensures QueueInv(db')
  {
    LeasingKeepsInv(mid, p, worker, now, expires);
  }

  lemma RowClaimed(db: Db, worker: Id, now: Instant, ttl: int, db': Db, c: PublicClaim) returns (p: Id)
    requires ReturnsPublic(db, worker, now, ttl, db', c)
    ensures Eligible(Recover(db, now), now, p) && db' == Leasing(Recover(db, now), p, worker, now, now + ttl)
  {
    p :| p in Recover(db, now).outbox && ClaimsRow(Recover(db, now), p, worker, now, now + ttl, db', c);
  }

  /** A leased row can be fenced by its claim. */
  lemma LeasedCanBeFenced(db: Db, c: PublicClaim, acquired: Instant, t: Instant)
    requires TwoTables(db) && c.rowId in db.outbox && ClaimRepeats(c, db.outbox[c.rowId]) && LeasedTo(db.outbox[c.rowId], c, acquired)
    ensures Holds(db, c, {Leased})
    ensures CanFence(db, c, t) <==> t < c.deadline && t < c.leaseExpiresAt
  {
    assert Linked(db, c.rowId);
  }

  /** It can be fenced at any moment before its deadline and its expiry, and then only. */
  lemma ReturnedClaimCanBeFenced(db: Db, worker: Id, now: Instant, ttl: int, db': Db, c: PublicClaim, t: Instant)
    requires QueueInv(db) && ReturnsPublic(db, worker, now, ttl, db', c)
    ensures QueueInv(db') && Holds(db', c, {Leased})
    ensures CanFence(db', c, t) <==> t < c.deadline && t < c.leaseExpiresAt
  {
    ReturnedClaim(db, worker, now, ttl, db', c);
    ReturningKeepsInv(db, worker, now, ttl, db', c);
    LeasedCanBeFenced(db', c, now, t);
  }

  /** The columns of the claim's row and of its allocation that a call changed; no
      other row and no other allocation changed, nor any other table. */
  predicate OnlyTouches(db: Db, db': Db, c: PublicClaim) {
    && c.rowId in db.outbox && c.key in db.authority
    && c.rowId in db'.outbox && c.key in db'.authority
    && db' == db.(outbox := db.outbox[c.rowId := db'.outbox[c.rowId]], authority := db.authority[c.key := db'.authority[c.key]])
    && db'.outbox[c.rowId].turn == db.outbox[c.rowId].turn && db'.outbox[c.rowId].content == db.outbox[c.rowId].content
    && db'.outbox[c.rowId].fencingToken == db.outbox[c.rowId].fencingToken
    && db'.outbox[c.rowId].claimCount == db.outbox[c.rowId].claimCount
    && var a, b := db.authority[c.key], db'.authority[c.key];
       && b.header == a.header && b.terms == a.terms && b.ordinal == a.ordinal && b.publicRow == a.publicRow
       && b.revision == a.revision + 1
  }

  predicate NoLease(r: PublicRow) {
    r.owner.None? && r.acquiredAt.None? && r.expiresAt.None?
  }

  /** The fence takes the row's one slot and stamps the allocation. */
  lemma FenceTakesSlot(db: Db, c: PublicClaim, t: Instant)
    requires QueueInv(db) && CanFence(db, c, t)
    ensures var db' := Fencing(db, c, t);
            && OnlyTouches(db, db', c) && QueueInv(db')
            && var r, s := db.outbox[c.rowId], db'.outbox[c.rowId];
               && s.status == DispatchFenced && s.slots == 1 && s.deliveryReceipt == r.deliveryReceipt
               && s.owner == r.owner && s.acquiredAt == r.acquiredAt && s.expiresAt == r.expiresAt
               && db'.authority[c.key].state == AuthFenced && db'.authority[c.key].fencedAt == Some(t)
  {
    assert Linked(db, c.rowId);
    FencingKeepsInv(db, c, t);
  }

  // ------------------------------------------------------------- recovery

  predicate Expired(r: PublicRow, now: Instant) {
    r.expiresAt.Some? && r.expiresAt.value <= now
  }

  /** What a recovery makes of a row: a fenced one whose lease ran out goes to a human;
      a leased one waits again; and what waits past its deadline is cancelled. */
  predicate RecoveredRow(r: PublicRow, s: PublicRow, now: Instant) {
    && s.turn == r.turn && s.content == r.content && s.fencingToken == r.fencingToken && s.claimCount == r.claimCount
    && s.slots == r.slots && s.deliveryReceipt == r.deliveryReceipt
    && match r.status
       case DispatchFenced => if Expired(r, now) then s.status == ManualReview && NoLease(s) else s == r
       case Leased =>
         if !Expired(r, now) then s == r
         else NoLease(s) && s.status == if r.content.deadline <= now then Cancelled else Pending
       case Pending => if r.content.deadline <= now then s == r.(status := Cancelled) else s == r
       case _ => s == r
  }

  /** What it makes of the row's allocation. */
  predicate RecoveredAllocation(r: PublicRow, s: PublicRow, a: AuthRow, b: AuthRow) {
    && b.header == a.header && b.terms == a.terms && b.ordinal == a.ordinal && b.publicRow == a.publicRow
    && b.revision == a.revision
    && (if r.status != ManualReview && s.status == ManualReview && a.state == AuthFenced
        then b.state == AuthManualReview && b.fencedAt.None?
        else if r.status != Cancelled && s.status == Cancelled && a.state == Bound
        then b.state == Closed && b.fencedAt.None?
        else b == a)
  }

  lemma RecoveryIs(db: Db, now: Instant, p: Id)
    requires TwoTables(db) && p in db.outbox
    ensures var k, db' := db.outbox[p].content.key, Recover(db, now);
            && db' == db.(outbox := db'.outbox, authority := db'.authority)
            && db'.outbox.Keys == db.outbox.Keys && db'.authority.Keys == db.authority.Keys
            && RecoveredRow(db.outbox[p], db'.outbox[p], now)
            && k in db.authority && RecoveredAllocation(db.outbox[p], db'.outbox[p], db.authority[k], db'.authority[k])
  {
    assert Linked(db, p);
  }

  // ----------------------------------------------------- settling a claim

  /** An UPDATE by public row id moves the row's own allocation and no other. */
  lemma MovesOnlyAllocation(db: Db, p: Id, states: set<AuthState>, target: AuthState, bump: bool)
    requires TwoTables(db) && p in db.outbox && Linked(db, p) && db.authority[db.outbox[p].content.key].state in states
    ensures var k := db.outbox[p].content.key;
            && Matching(db.authority, p, states) == {k}
            && Move(db.authority, p, states, target, bump) == db.authority[k := Moved(db.authority[k], target, bump)]
  {
    OnlyAllocation(db, p, states);
    var k, auth := db.outbox[p].content.key, db.authority;
    var moved := Move(auth, p, states, target, bump);
    forall l | l in auth && l != k ensures moved[l] == auth[l] {
      assert l !in Matching(auth, p, states);
    }
    assert moved == auth[k := moved[k]];
  }

  /** After the fence the claim can be completed with a receipt that names its row and
      its idempotency key, until it expires; it can be released and reviewed. */
  lemma FencedCanSettle(db: Db, c: PublicClaim, receipt: AcceptanceReceipt, u: Instant)
    requires QueueInv(db) && Holds(db, c, {DispatchFenced})
    ensures CanComplete(db, c, receipt, u) <==>
              u < c.leaseExpiresAt && receipt.rowId == c.rowId && receipt.idempotencyKey == c.idempotencyKey
    ensures CanRelease(db, c) && CanReview(db, c)
  {
    assert Linked(db, c.rowId);
    OnlyAllocation(db, c.rowId, {AuthFenced});
    OnlyAllocation(db, c.rowId, {Bound, AuthFenced});
  }

  /** The completion stores the very receipt and keeps the fence's stamp. */
  lemma CompletionStoresReceipt(db: Db, c: PublicClaim, receipt: AcceptanceReceipt, u: Instant)
    requires QueueInv(db) && CanComplete(db, c, receipt, u) && db.outbox[c.rowId].content.key == c.key
    ensures var db' := Completing(db, c, receipt);
            && OnlyTouches(db, db', c)
            && var s := db'.outbox[c.rowId];
               && s.status == Delivered && s.slots == db.outbox[c.rowId].slots && NoLease(s) && s.deliveryReceipt == Some(receipt)
               && db'.authority[c.key].state == Terminal && db'.authority[c.key].fencedAt == db.authority[c.key].fencedAt
  {
    assert Linked(db, c.rowId);
    MovesOnlyAllocation(db, c.rowId, {AuthFenced}, Terminal, true);
  }

  /** The release gives the slot back on both tables. */
  lemma ReleaseGivesSlotBack(db: Db, c: PublicClaim)
    requires QueueInv(db) && CanRelease(db, c) && db.outbox[c.rowId].content.key == c.key
    ensures var db' := Releasing(db, c);
            && OnlyTouches(db, db', c)
            && var s := db'.outbox[c.rowId];
               && s.status == Pending && s.slots == 0 && NoLease(s) && s.deliveryReceipt == db.outbox[c.rowId].deliveryReceipt
               && db'.authority[c.key].state == Bound && db'.authority[c.key].fencedAt.None?
  {
    assert Linked(db, c.rowId);
    MovesOnlyAllocation(db, c.rowId, {AuthFenced}, Bound, true);
  }

  /** The review ends the lease and keeps the slot as it was. */
  lemma ReviewEndsLease(db: Db, c: PublicClaim)
    requires QueueInv(db) && CanReview(db, c) && db.outbox[c.rowId].content.key == c.key
    ensures var db' := Reviewing(db, c);
            && OnlyTouches(db, db', c)
            && var s := db'.outbox[c.rowId];
               && s.status == ManualReview && s.slots == db.outbox[c.rowId].slots && NoLease(s)
               && s.deliveryReceipt == db.outbox[c.rowId].deliveryReceipt
               && db'.authority[c.key].state == AuthManualReview && db'.authority[c.key].fencedAt.None?
  {
    assert Linked(db, c.rowId);
    MovesOnlyAllocation(db, c.rowId, {Bound, AuthFenced}, AuthManualReview, true);
  }

  /** The whole way of a claim: what the claim call returned can be fenced in time,
      and what was fenced can be completed in time with a receipt that matches the
      row; the row then holds that receipt. */
  lemma ClaimDelivers(db: Db, worker: Id, now: Instant, ttl: int, db1: Db, c: PublicClaim, t: Instant,
                      receipt: AcceptanceReceipt, u: Instant)
    requires QueueInv(db) && ReturnsPublic(db, worker, now, ttl, db1, c)
    requires t < c.deadline && t < c.leaseExpiresAt && u < c.leaseExpiresAt
    requires c.rowId in db.outbox
    requires receipt.rowId == c.rowId && receipt.idempotencyKey == db.outbox[c.rowId].content.idempotencyKey
    ensures CanFence(db1, c, t) && CanComplete(Fencing(db1, c, t), c, receipt, u)
    ensures var db2 := Completing(Fencing(db1, c, t), c, receipt);
            && c.rowId in db2.outbox && db2.outbox[c.rowId].status == Delivered
            && db2.outbox[c.rowId].deliveryReceipt == Some(receipt)
            && c.key in db2.authority && db2.authority[c.key].state == Terminal && db2.authority[c.key].fencedAt == Some(t)
  {
    ReturnedClaim(db, worker, now, ttl, db1, c);
    ReturnedClaimCanBeFenced(db, worker, now, ttl, db1, c, t);
    FenceTakesSlot(db1, c, t);
    var fenced := Fencing(db1, c, t);
    FencedCanSettle(fenced, c, receipt, u);
    CompletionStoresReceipt(fenced, c, receipt, u);
  }

  // -------------------------------------------------------- command relays

  predicate ReturnsRelay(db: Db, worker: Id, now: Instant, ttl: int, db': Db, c: RelayClaim) {
    && !BadLease(now, ttl)
    && exists p :: p in ReclaimedRelays(db.relays, now) && LeasesRelay(db, p, worker, now, now + ttl, db', c)
  }

  predicate LeasesRelay(db: Db, p: Id, worker: Id, now: Instant, expires: Instant, db': Db, c: RelayClaim)
    requires p in ReclaimedRelays(db.relays, now)
  {
    var t := ReclaimedRelays(db.relays, now);
    FirstRelay(t, p) && Workers.RelayClaimed(db, t, p, worker, now, expires, db', Ok(Some(c)))
  }

  /** The row waits, or its lease has run out. */
  predicate Available(q: QueueState, now: Instant) {
    q.status == QPending || (q.status == QLeased && q.expiresAt.Some? && q.expiresAt.value <= now)
  }

  /** A row that nobody claimed: leases that ran out are over, and nothing else changed. */
  predicate ReclaimedOnly(q: QueueState, q': QueueState, now: Instant) {
    && q'.failures == q.failures && q'.targetReceipt == q.targetReceipt && q'.ackedAt == q.ackedAt
    && q'.fencingToken == q.fencingToken && q'.claimCount == q.claimCount
    && if q.status == QLeased && Available(q, now) then q'.status == QPending && NoQueueLease(q') else q' == q
  }

  predicate NoQueueLease(q: QueueState) {
    q.owner.None? && q.acquiredAt.None? && q.expiresAt.None?
  }

  predicate LeasedQueue(q: QueueState, worker: Id, token: nat, now: Instant, expires: Instant) {
    && q.status == QLeased && q.owner == Some(worker) && q.fencingToken == token == q.claimCount
    && q.acquiredAt == Some(now) && q.expiresAt == Some(expires)
  }

  /** A reservation bundle whose own hash is the digest of its body. */
  predicate SoundReservation(b: BundleJson, h: Digest) {
    b.ReservationJson? && b.claimedHash == h == BundlePreimageDigest("reservation", b.body)
  }

  predicate SoundHandoff(b: BundleJson, h: Digest) {
    b.HandoffJson? && b.claimedHash == h == BundlePreimageDigest("handoff", b.body)
  }

  /** A returned relay claim repeats its row, whose bundle authenticates itself, and
      names the operation its receipt must carry. */
  lemma ReturnedRelay(db: Db, worker: Id, now: Instant, ttl: int, db': Db, c: RelayClaim)
    requires RelaysOk(db.relays) && ReturnsRelay(db, worker, now, ttl, db', c)
    ensures c.relayId in db.relays && c.relayId in db'.relays && db' == db.(relays := db'.relays)
    ensures var r := db.relays[c.relayId].content;
            && c.commandId == r.commandId && c.bundle == r.bundle && c.bundleHash == r.bundleHash
            && c.sourceReceipt == r.receiptHash && c.operationId == OperationDigest(true, r.bundleHash, r.receiptHash)
            && SoundReservation(r.bundle, r.bundleHash)
    ensures c.worker == worker && c.expiresAt == now + ttl && c.token == db.relays[c.relayId].queue.fencingToken + 1
    ensures Available(db.relays[c.relayId].queue, now)
    ensures var q := db'.relays[c.relayId];
            && q.turn == db.relays[c.relayId].turn && q.content == db.relays[c.relayId].content
            && LeasedQueue(q.queue, worker, c.token, now, c.expiresAt)
            && q.queue.failures == db.relays[c.relayId].queue.failures
    ensures HoldsRelay(db'.relays, c)
  {
    var t := ReclaimedRelays(db.relays, now);
    var p :| p in t && LeasesRelay(db, p, worker, now, now + ttl, db', c);
  }

  lemma OtherRelaysReclaimed(db: Db, worker: Id, now: Instant, ttl: int, db': Db, c: RelayClaim, q: Id)
    requires ReturnsRelay(db, worker, now, ttl, db', c) && q in db.relays && q != c.relayId
    ensures q in db'.relays && db'.relays[q].turn == db.relays[q].turn && db'.relays[q].content == db.relays[q].content
    ensures ReclaimedOnly(db.relays[q].queue, db'.relays[q].queue, now)
  {
  }

  /** The claims whose text sorts first are handed out first. */
  lemma ReturnedRelayIsFirst(db: Db, worker: Id, now: Instant, ttl: int, db': Db, c: RelayClaim, q: Id)
    requires ReturnsRelay(db, worker, now, ttl, db', c) && q in db.relays
    requires Available(db.relays[q].queue, now)
    ensures c.relayId == q || Text.Less(c.relayId.text, q.text)
  {
    var t := ReclaimedRelays(db.relays, now);
    var p :| p in t && LeasesRelay(db, p, worker, now, now + ttl, db', c);
    assert RelayPending(t, q);
    Text.LessIsTotal(p.text, q.text);
  }

  /** What a call that settles a queue row leaves of its lease. */
  predicate Settled(q: QueueState, q': QueueState) {
    && q'.owner.None? && q'.acquiredAt.None? && q'.expiresAt.None?
    && q'.fencingToken == q.fencingToken && q'.claimCount == q.claimCount
  }

  /** While it is held, a relay claim is completed by exactly the receipts that name
      its operation, its bundle and its turn's receipt, and the row stores that receipt. */
  lemma ReceiptCompletesRelay(t: Relays, c: RelayClaim, receipt: TargetReceipt, now: Instant)
    requires HoldsRelay(t, c)
    ensures RelayReceiptMatches(c, receipt) <==>
              receipt == TargetReceipt(c.operationId, true, c.bundleHash, c.sourceReceipt, receipt.body)
    ensures var t' := AckedRelays(t, c, receipt, now);
            && t'.Keys == t.Keys && (forall p :: p in t && p != c.relayId ==> t'[p] == t[p])
            && var q, q' := t[c.relayId], t'[c.relayId];
               && q'.turn == q.turn && q'.content == q.content && Settled(q.queue, q'.queue)
               && q'.queue.status == QAcked && q'.queue.targetReceipt == Some(receipt) && q'.queue.ackedAt == Some(now)
               && q'.queue.failures == q.queue.failures
  {
  }

  /** A released relay waits again, and after the third failure for a human. */
  lemma ReleaseReturnsRelay(t: Relays, c: RelayClaim)
    requires HoldsRelay(t, c)
    ensures var t' := GivenUpRelays(t, c);
            && t'.Keys == t.Keys && (forall p :: p in t && p != c.relayId ==> t'[p] == t[p])
            && var q, q' := t[c.relayId], t'[c.relayId];
               && q'.turn == q.turn && q'.content == q.content && Settled(q.queue, q'.queue)
               && q'.queue.status == (if q.queue.failures < 2 then QPending else QManualReview)
               && q'.queue.failures == q.queue.failures + 1
               && q'.queue.targetReceipt == q.queue.targetReceipt && q'.queue.ackedAt == q.queue.ackedAt
  {
  }

  /** The whole way of a relay claim. */
  lemma RelayClaimCompletes(db: Db, worker: Id, now: Instant, ttl: int, db': Db, c: RelayClaim, body: string, u: Instant)
    requires RelaysOk(db.relays) && ReturnsRelay(db, worker, now, ttl, db', c) && c.relayId in db.relays && u < now + ttl
    ensures var r := db.relays[c.relayId].content;
            var receipt := TargetReceipt(OperationDigest(true, r.bundleHash, r.receiptHash), true, r.bundleHash, r.receiptHash, body);
            && u < c.expiresAt && RelayReceiptMatches(c, receipt) && HoldsRelay(db'.relays, c)
            && AckedRelays(db'.relays, c, receipt, u)[c.relayId].queue.targetReceipt == Some(receipt)
  {
    ReturnedRelay(db, worker, now, ttl, db', c);
  }

  // --------------------------------------------------------- internal jobs

  predicate ReturnsJob(db: Db, worker: Id, now: Instant, ttl: int, db': Db, c: JobClaim) {
    && !BadLease(now, ttl)
    && exists p :: p in ReclaimedJobs(db.jobs, now) && LeasesJob(db, p, worker, now, now + ttl, db', c)
  }

  predicate LeasesJob(db: Db, p: Id, worker: Id, now: Instant, expires: Instant, db': Db, c: JobClaim)
    requires p in ReclaimedJobs(db.jobs, now)
  {
    var t := ReclaimedJobs(db.jobs, now);
    FirstHandoff(t, p) && Workers.JobClaimed(db, t, p, worker, now, expires, db', Ok(Some(c)))
  }

  /** A returned job claim repeats its row, and the row's target becomes the operation. */
  lemma ReturnedJob(db: Db, worker: Id, now: Instant, ttl: int, db': Db, c: JobClaim)
    requires JobsOk(db.jobs) && ReturnsJob(db, worker, now, ttl, db', c)
    ensures c.jobId in db.jobs && c.jobId in db'.jobs && db' == db.(jobs := db'.jobs)
    ensures var r := db.jobs[c.jobId].content;
            && r.kind == HandoffRelay && c.bundle == r.bundle && c.artifactHash == r.artifactHash
            && c.sourceReceipt == r.receiptHash && c.operationId == OperationDigest(true, r.artifactHash, r.receiptHash)
            && SoundHandoff(r.bundle, r.artifactHash)
    ensures c.worker == worker && c.expiresAt == now + ttl && c.token == db.jobs[c.jobId].queue.fencingToken + 1
    ensures Available(db.jobs[c.jobId].queue, now)
    ensures var q := db'.jobs[c.jobId];
            && q.turn == db.jobs[c.jobId].turn && q.content == db.jobs[c.jobId].content && q.target == c.operationId
            && LeasedQueue(q.queue, worker, c.token, now, c.expiresAt)
            && q.queue.failures == db.jobs[c.jobId].queue.failures
    ensures HoldsJob(db'.jobs, c)
  {
    var t := ReclaimedJobs(db.jobs, now);
    var p :| p in t && LeasesJob(db, p, worker, now, now + ttl, db', c);
  }

  lemma OtherJobsReclaimed(db: Db, worker: Id, now: Instant, ttl: int, db': Db, c: JobClaim, q: Id)
    requires ReturnsJob(db, worker, now, ttl, db', c) && q in db.jobs && q != c.jobId
    ensures q in db'.jobs && db'.jobs[q].turn == db.jobs[q].turn && db'.jobs[q].content == db.jobs[q].content
    ensures db'.jobs[q].target == db.jobs[q].target && ReclaimedOnly(db.jobs[q].queue, db'.jobs[q].queue, now)
  {
  }

  /** Handoffs are handed out in the order of their ids. */
  lemma ReturnedJobIsFirst(db: Db, worker: Id, now: Instant, ttl: int, db': Db, c: JobClaim, q: Id)
    requires ReturnsJob(db, worker, now, ttl, db', c) && q in db.jobs
    requires db.jobs[q].content.kind == HandoffRelay && Available(db.jobs[q].queue, now)
    ensures c.jobId == q || Text.Less(c.jobId.text, q.text)
  {
    var t := ReclaimedJobs(db.jobs, now);
    var p :| p in t && LeasesJob(db, p, worker, now, now + ttl, db', c);
    assert HandoffPending(t, q);
    Text.LessIsTotal(p.text, q.text);
  }

  lemma ReceiptCompletesJob(t: Jobs, c: JobClaim, receipt: TargetReceipt, now: Instant)
    requires HoldsJob(t, c)
    ensures JobReceiptMatches(c, receipt) <==>
              receipt == TargetReceipt(c.operationId, true, c.artifactHash, c.sourceReceipt, receipt.body)
    ensures var t' := AckedJobs(t, c, receipt, now);
            && t'.Keys == t.Keys && (forall p :: p in t && p != c.jobId ==> t'[p] == t[p])
            && var q, q' := t[c.jobId], t'[c.jobId];
               && q'.turn == q.turn && q'.content == q.content && q'.target == q.target && Settled(q.queue, q'.queue)
               && q'.queue.status == QAcked && q'.queue.targetReceipt == Some(receipt) && q'.queue.ackedAt == Some(now)
               && q'.queue.failures == q.queue.failures
  {
  }

  lemma ReleaseReturnsJob(t: Jobs, c: JobClaim)
    requires HoldsJob(t, c)
    ensures var t' := GivenUpJobs(t, c);
            && t'.Keys == t.Keys && (forall p :: p in t && p != c.jobId ==> t'[p] == t[p])
            && var q, q' := t[c.jobId], t'[c.jobId];
               && q'.turn == q.turn && q'.content == q.content && q'.target == q.target && Settled(q.queue, q'.queue)
               && q'.queue.status == (if q.queue.failures < 2 then QPending else QManualReview)
               && q'.queue.failures == q.queue.failures + 1
               && q'.queue.targetReceipt == q.queue.targetReceipt && q'.queue.ackedAt == q.queue.ackedAt
  {
  }

  /** The whole way of a job claim. */
  lemma JobClaimCompletes(db: Db, worker: Id, now: Instant, ttl: int, db': Db, c: JobClaim, body: string, u: Instant)
    requires JobsOk(db.jobs) && ReturnsJob(db, worker, now, ttl, db', c) && c.jobId in db.jobs && u < now + ttl
    ensures var r := db.jobs[c.jobId].content;
            var receipt := TargetReceipt(OperationDigest(true, r.artifactHash, r.receiptHash), true, r.artifactHash, r.receiptHash, body);
            && u < c.expiresAt && JobReceiptMatches(c, receipt) && HoldsJob(db'.jobs, c)
            && AckedJobs(db'.jobs, c, receipt, u)[c.jobId].queue.targetReceipt == Some(receipt)
  {
    ReturnedJob(db, worker, now, ttl, db', c);
  }
}
