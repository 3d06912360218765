/** What each operation on the public delivery queue does to the tables, stated
    as guarded updates. The class in WorkerStore.dfy performs the same
    operations statement by statement with rollback. */
module PublicQueue {
  import opened Options
  import opened Tables
  import Text

  datatype PublicClaim = PublicClaim(
    rowId: Id, turn: TurnKey, chunk: PublicReplyChunk, idempotencyKey: Id,
    targetBindingHash: Digest, channelId: Id, key: AuthKey, receiptHash: Digest, deadline: Instant,
    workerId: Id, fencingToken: nat, leaseExpiresAt: Instant)

  // ------------------------------------------------------------- authority

  /** The authority rows an UPDATE naming public row `p` in one of `states` touches. */
  function Matching(auth: map<AuthKey, AuthRow>, p: Id, states: set<AuthState>): set<AuthKey> {
    set k | k in auth && auth[k].publicRow == Some(p) && auth[k].state in states
  }

  function Moved(a: AuthRow, target: AuthState, bump: bool): AuthRow {
    a.(state := target,
       fencedAt := if target == Terminal then a.fencedAt else None,
       revision := if bump then a.revision + 1 else a.revision)
  }

  /** That UPDATE: every matching row goes to `target`; `fenced_at` survives only into `terminal`. */
  function Move(auth: map<AuthKey, AuthRow>, p: Id, states: set<AuthState>, target: AuthState, bump: bool)
    : map<AuthKey, AuthRow>
  {
    map k | k in auth ::
      if auth[k].publicRow == Some(p) && auth[k].state in states then Moved(auth[k], target, bump) else auth[k]
  }

  // -------------------------------------------------------------- recovery

  function Unleased(r: PublicRow, status: PublicStatus): PublicRow {
    r.(status := status, owner := None, acquiredAt := None, expiresAt := None)
  }

  predicate LeaseOver(r: PublicRow, now: Instant) {
    r.expiresAt.Some? && r.expiresAt.value <= now
  }

  /** A fenced row whose lease ran out: the send may or may not have happened. */
  predicate Uncertain(r: PublicRow, now: Instant) {
    r.status == DispatchFenced && LeaseOver(r, now)
  }

  function Reclaimed(r: PublicRow, now: Instant): PublicRow {
    if r.status == Leased && LeaseOver(r, now) then Unleased(r, Pending) else r
  }

  predicate Overdue(r: PublicRow, now: Instant) {
    r.status == Pending && r.content.deadline <= now
  }

  function RecoverRow(r: PublicRow, now: Instant): PublicRow {
    if Uncertain(r, now) then Unleased(r, ManualReview)
    else
      var r1 := Reclaimed(r, now);
      if Overdue(r1, now) then r1.(status := Cancelled) else r1
  }

  function RecoverAuth(outbox: map<Id, PublicRow>, a: AuthRow, now: Instant): AuthRow {
    if a.publicRow.None? || a.publicRow.value !in outbox then a
    else
      var r := outbox[a.publicRow.value];
      if Uncertain(r, now) && a.state == AuthFenced then Moved(a, AuthManualReview, false)
      else if !Uncertain(r, now) && Overdue(Reclaimed(r, now), now) && a.state == Bound then Moved(a, Closed, false)
      else a
  }

  function Recover(db: Db, now: Instant): Db {
    db.(outbox := map p | p in db.outbox :: RecoverRow(db.outbox[p], now),
        authority := map k | k in db.authority :: RecoverAuth(db.outbox, db.authority[k], now))
  }

  // ----------------------------------------------------------------- claim

  predicate Live(s: PublicStatus) {
    s == Pending || s == Leased || s == DispatchFenced
  }

  /** An earlier turn of the same lead still has a row that may be sent. */
  predicate Blocked(db: Db, p: Id)
    requires p in db.outbox && db.outbox[p].turn in db.events
  {
    exists q :: q in db.outbox && Blocks(db, q, p)
  }

  predicate Blocks(db: Db, q: Id, p: Id)
    requires p in db.outbox && db.outbox[p].turn in db.events
  {
    && q in db.outbox && db.outbox[q].turn in db.events
    && db.outbox[q].turn.lead == db.outbox[p].turn.lead
    && db.events[db.outbox[q].turn].version < db.events[db.outbox[p].turn].version
    && Live(db.outbox[q].status)
  }

  predicate PredecessorDelivered(db: Db, p: Id)
    requires p in db.outbox
  {
    exists q :: q in db.outbox && db.outbox[q].turn == db.outbox[p].turn
      && Some(db.outbox[q].content.chunkHash) == db.outbox[p].content.predecessor
      && db.outbox[q].status == Delivered
  }

  predicate Eligible(db: Db, now: Instant, p: Id) {
    && p in db.outbox && db.outbox[p].turn in db.events
    && db.outbox[p].status == Pending && db.outbox[p].content.deadline > now
    && !Blocked(db, p)
    && (db.outbox[p].content.chunkIndex == 0 || PredecessorDelivered(db, p))
  }

  /** The claim query's ORDER BY: occurred_at, lead_key, state_version, chunk_index. */
  predicate Before(db: Db, p: Id, q: Id)
    requires p in db.outbox && db.outbox[p].turn in db.events
    requires q in db.outbox && db.outbox[q].turn in db.events
  {
    var r, s := db.outbox[p], db.outbox[q];
    var e, f := db.events[r.turn], db.events[s.turn];
    if e.occurredAt != f.occurredAt then e.occurredAt < f.occurredAt
    else if r.turn.lead != s.turn.lead then Text.Less(r.turn.lead.text, s.turn.lead.text)
    else if e.version != f.version then e.version < f.version
    else r.content.chunkIndex < s.content.chunkIndex
  }

  predicate IsNext(db: Db, now: Instant, p: Id) {
    && Eligible(db, now, p)
    && forall q {:trigger Eligible(db, now, q)} :: q in db.outbox && Eligible(db, now, q) ==> !Before(db, q, p)
  }

  lemma BeforeIsStrictOrder(db: Db, p: Id, q: Id, r: Id)
    requires p in db.outbox && db.outbox[p].turn in db.events
    requires q in db.outbox && db.outbox[q].turn in db.events
    requires r in db.outbox && db.outbox[r].turn in db.events
    ensures !Before(db, p, p)
    ensures Before(db, p, q) && Before(db, q, r) ==> Before(db, p, r)
  {
    var s, t, u := db.outbox[p].turn.lead.text, db.outbox[q].turn.lead.text, db.outbox[r].turn.lead.text;
    Text.LessIsIrreflexive(s);
    if Text.Less(s, t) && Text.Less(t, u) {
      Text.LessIsTransitive(s, t, u);
      Text.LessIsIrreflexive(s);
    }
  }

  /** ORDER BY ... LIMIT 1 over a non-empty result returns a row. */
  lemma {:induction false} SomeRowIsFirst(db: Db, rows: set<Id>) returns (p: Id)
    requires rows != {}
    requires forall q :: q in rows ==> q in db.outbox && db.outbox[q].turn in db.events
    ensures p in rows && forall q :: q in rows ==> !Before(db, q, p)
  {
    var x :| x in rows;
    if rows == {x} {
      BeforeIsStrictOrder(db, x, x, x);
      p := x;
    } else {
      var m := SomeRowIsFirst(db, rows - {x});
      p := if Before(db, x, m) then x else m;
      forall q | q in rows ensures !Before(db, q, p) {
        BeforeIsStrictOrder(db, q, x, m);
      }
    }
  }

  lemma NextExists(db: Db, now: Instant, q: Id) returns (p: Id)
    requires Eligible(db, now, q)
    ensures IsNext(db, now, p)
  {
    var rows := set o | o in db.outbox && Eligible(db, now, o);
    assert q in rows;
    p := SomeRowIsFirst(db, rows);
  }

  function LeasedRow(r: PublicRow, worker: Id, now: Instant, expires: Instant): PublicRow {
    r.(status := Leased, owner := Some(worker), fencingToken := r.fencingToken + 1,
       claimCount := r.claimCount + 1, acquiredAt := Some(now), expiresAt := Some(expires))
  }

  function Leasing(db: Db, p: Id, worker: Id, now: Instant, expires: Instant): Db
    requires p in db.outbox
  {
    db.(outbox := db.outbox[p := LeasedRow(db.outbox[p], worker, now, expires)])
  }

  function ClaimOf(p: Id, r: PublicRow, worker: Id, expires: Instant): PublicClaim
    requires r.content.chunkJson.Canonical?
  {
    PublicClaim(p, r.turn, r.content.chunkJson.value, r.content.idempotencyKey,
                r.content.terms.targetBindingHash, r.content.channelId, r.content.key,
                r.content.receiptHash, r.content.deadline, worker, r.fencingToken + 1, expires)
  }

  // ------------------------------------------------- fence, complete, release

  /** The CAS every later step makes: the row is still this claim's. */
  predicate Holds(db: Db, c: PublicClaim, statuses: set<PublicStatus>) {
    && c.rowId in db.outbox
    && db.outbox[c.rowId].status in statuses
    && db.outbox[c.rowId].owner == Some(c.workerId)
    && db.outbox[c.rowId].fencingToken == c.fencingToken
  }

  predicate CanFence(db: Db, c: PublicClaim, now: Instant) {
    && now < c.deadline && now < c.leaseExpiresAt
    && c.key in db.authority
    && db.authority[c.key].publicRow == Some(c.rowId)
    && db.authority[c.key].state == Bound
    && Holds(db, c, {Leased})
  }

  function Fencing(db: Db, c: PublicClaim, now: Instant): Db
    requires c.key in db.authority && c.rowId in db.outbox
  {
    db.(authority := db.authority[c.key := db.authority[c.key].(
          state := AuthFenced, fencedAt := Some(now), revision := db.authority[c.key].revision + 1)],
        outbox := db.outbox[c.rowId := db.outbox[c.rowId].(status := DispatchFenced, slots := 1)])
  }

  predicate CanComplete(db: Db, c: PublicClaim, receipt: AcceptanceReceipt, now: Instant) {
    && now < c.leaseExpiresAt
    && receipt.rowId == c.rowId && receipt.idempotencyKey == c.idempotencyKey
    && Holds(db, c, {DispatchFenced})
    && |Matching(db.authority, c.rowId, {AuthFenced})| == 1
  }

  function Completing(db: Db, c: PublicClaim, receipt: AcceptanceReceipt): Db
    requires c.rowId in db.outbox
  {
    db.(outbox := db.outbox[c.rowId := Unleased(db.outbox[c.rowId], Delivered).(deliveryReceipt := Some(receipt))],
        authority := Move(db.authority, c.rowId, {AuthFenced}, Terminal, true))
  }

  predicate CanRelease(db: Db, c: PublicClaim) {
    && Holds(db, c, {DispatchFenced})
    && |Matching(db.authority, c.rowId, {AuthFenced})| == 1
  }

  function Releasing(db: Db, c: PublicClaim): Db
    requires c.rowId in db.outbox
  {
    db.(authority := Move(db.authority, c.rowId, {AuthFenced}, Bound, true),
        outbox := db.outbox[c.rowId := Unleased(db.outbox[c.rowId], Pending).(slots := 0)])
  }

  predicate CanReview(db: Db, c: PublicClaim) {
    && Holds(db, c, {Leased, DispatchFenced})
    && |Matching(db.authority, c.rowId, {Bound, AuthFenced})| == 1
  }

  function Reviewing(db: Db, c: PublicClaim): Db
    requires c.rowId in db.outbox
  {
    db.(outbox := db.outbox[c.rowId := Unleased(db.outbox[c.rowId], ManualReview)],
        authority := Move(db.authority, c.rowId, {Bound, AuthFenced}, AuthManualReview, true))
  }
}
