/** The worker store, for public rows, command relays and internal jobs: each
    method issues its statements in the code's order inside one transaction, and
    puts the tables back when a later statement loses its compare-and-swap. */
module WorkerStore {
  import opened Options
  import opened Tables
  import opened PublicQueue
  import opened BoundaryStore
  import opened LeaseQueue

  class SQLiteBoundaryWorkerStore {
    const boundary: SQLiteBoundaryStore

    constructor (boundary: SQLiteBoundaryStore)
      ensures this.boundary == boundary
    {
      this.boundary := boundary;
    }

    method RecoverExpiredPublic(now: Instant)
      modifies boundary
      ensures boundary.db == Recover(old(boundary.db), now)
    {
      RecoverInPasses(boundary.db.outbox, boundary.db.authority, now);
      QuarantineUncertain(now);
      boundary.db := boundary.db.(outbox := ReclaimedRows(boundary.db.outbox, now));
      CancelOverdue(now);
    }

    /** The first loop: fenced rows whose lease is over go to manual review. */
    method QuarantineUncertain(now: Instant)
      modifies boundary
      ensures boundary.db == Quarantined(old(boundary.db), UncertainRows(old(boundary.db).outbox, now))
    {
      ghost var db := boundary.db;
      var uncertain := UncertainRows(boundary.db.outbox, now);
      var todo := uncertain;
      ghost var done := {};
      NoneMoved(db.outbox, db.authority, AuthFenced, AuthManualReview);
      while todo != {}
        invariant todo + done == uncertain && todo !! done
        invariant boundary.db == Quarantined(db, done)
        decreases |todo|
      {
        var p :| p in todo;
        QuarantinedNext(db, done, p);
        boundary.db := boundary.db.(authority := Move(boundary.db.authority, p, {AuthFenced}, AuthManualReview, false));
        if p in boundary.db.outbox && boundary.db.outbox[p].status == DispatchFenced {
          boundary.db := boundary.db.(outbox := boundary.db.outbox[p := Unleased(boundary.db.outbox[p], ManualReview)]);
        }
        todo := todo - {p};
        done := done + {p};
      }
      assert done == uncertain;
    }

    /** The second loop: pending rows past their deadline are cancelled and their allocations closed. */
    method CancelOverdue(now: Instant)
      modifies boundary
      ensures boundary.db == WithoutOverdue(old(boundary.db), OverdueRows(old(boundary.db).outbox, now))
    {
      ghost var db := boundary.db;
      var overdue := OverdueRows(boundary.db.outbox, now);
      var todo := overdue;
      ghost var done := {};
      NoneMoved(db.outbox, db.authority, Bound, Closed);
      while todo != {}
        invariant todo + done == overdue && todo !! done
        invariant boundary.db == WithoutOverdue(db, done)
        decreases |todo|
      {
        var p :| p in todo;
        OverdueNext(db, done, p);
        boundary.db := boundary.db.(authority := Move(boundary.db.authority, p, {Bound}, Closed, false));
        if p in boundary.db.outbox && boundary.db.outbox[p].status == Pending {
          boundary.db := boundary.db.(outbox := boundary.db.outbox[p := boundary.db.outbox[p].(status := Cancelled)]);
        }
        todo := todo - {p};
        done := done + {p};
      }
      assert done == overdue;
    }

    method ClaimPublicDelivery(worker: Id, now: Instant, ttl: int) returns (r: Result<Option<PublicClaim>>)
      modifies boundary
      ensures r.Err? ==> boundary.db == old(boundary.db)
      ensures ttl <= 0 ==> r == Err(ValueError)
      ensures ttl > 0 && now + ttl > MAX_INSTANT ==> r == Err(OverflowError)
      ensures ttl > 0 && now + ttl <= MAX_INSTANT ==>
                var db1 := Recover(old(boundary.db), now);
                if NoneEligible(db1, now) then r == Ok(None) && boundary.db == db1
                else exists p :: IsNext(db1, now, p) && Claimed(db1, p, worker, now, now + ttl, boundary.db, r)
    {
      if ttl <= 0 { return Err(ValueError); }
      if now + ttl > MAX_INSTANT { return Err(OverflowError); }
      var expires: Instant := now + ttl;
      var saved := boundary.db;
      RecoverExpiredPublic(now);
      var next := SelectNext(boundary.db, now);
      if next.None? { return Ok(None); }
      var p := next.value;
      var row := boundary.db.outbox[p];
      boundary.db := Leasing(boundary.db, p, worker, now, expires);
      if row.content.chunkJson.Corrupt? {
        boundary.db := saved;
        return Err(ValueError);
      }
      return Ok(Some(ClaimOf(p, row, worker, expires)));
    }

    method FencePublicDelivery(c: PublicClaim, now: Instant) returns (r: Result<()>)
      modifies boundary
      ensures r == if CanFence(old(boundary.db), c, now) then Ok(()) else Err(ConcurrencyConflict)
      ensures boundary.db == if r.Ok? then Fencing(old(boundary.db), c, now) else old(boundary.db)
    {
      if now >= c.deadline || now >= c.leaseExpiresAt { return Err(ConcurrencyConflict); }
      var saved := boundary.db;
      var auth := boundary.db.authority;
      if !(c.key in auth && auth[c.key].publicRow == Some(c.rowId) && auth[c.key].state == Bound) {
        return Err(ConcurrencyConflict);
      }
      boundary.db := boundary.db.(authority := auth[c.key := auth[c.key].(
        state := AuthFenced, fencedAt := Some(now), revision := auth[c.key].revision + 1)]);
      if !Holds(boundary.db, c, {Leased}) {
        boundary.db := saved;
        return Err(ConcurrencyConflict);
      }
      boundary.db := boundary.db.(outbox := boundary.db.outbox[c.rowId :=
        boundary.db.outbox[c.rowId].(status := DispatchFenced, slots := 1)]);
      return Ok(());
    }

    method CompletePublicAcceptance(c: PublicClaim, receipt: AcceptanceReceipt, now: Instant) returns (r: Result<()>)
      modifies boundary
      ensures r.Ok? <==> CanComplete(old(boundary.db), c, receipt, now)
      ensures r.Err? ==>
                r == Err(if now < c.leaseExpiresAt
                            && !(receipt.rowId == c.rowId && receipt.idempotencyKey == c.idempotencyKey)
                         then IdentityConflict else ConcurrencyConflict)
      ensures boundary.db == if r.Ok? then Completing(old(boundary.db), c, receipt) else old(boundary.db)
    {
      if now >= c.leaseExpiresAt { return Err(ConcurrencyConflict); }
      if receipt.rowId != c.rowId || receipt.idempotencyKey != c.idempotencyKey { return Err(IdentityConflict); }
      var saved := boundary.db;
      if !Holds(boundary.db, c, {DispatchFenced}) { return Err(ConcurrencyConflict); }
      boundary.db := boundary.db.(outbox := boundary.db.outbox[c.rowId :=
        Unleased(boundary.db.outbox[c.rowId], Delivered).(deliveryReceipt := Some(receipt))]);
      var touched := |Matching(boundary.db.authority, c.rowId, {AuthFenced})|;
      boundary.db := boundary.db.(authority := Move(boundary.db.authority, c.rowId, {AuthFenced}, Terminal, true));
      if touched != 1 {
        boundary.db := saved;
        return Err(ConcurrencyConflict);
      }
      return Ok(());
    }

    method ReleasePublicDeliveryNotCalled(c: PublicClaim) returns (r: Result<()>)
      modifies boundary
      ensures r == if CanRelease(old(boundary.db), c) then Ok(()) else Err(ConcurrencyConflict)
      ensures boundary.db == if r.Ok? then Releasing(old(boundary.db), c) else old(boundary.db)
    {
      var saved := boundary.db;
      var touched := |Matching(boundary.db.authority, c.rowId, {AuthFenced})|;
      boundary.db := boundary.db.(authority := Move(boundary.db.authority, c.rowId, {AuthFenced}, Bound, true));
      if touched != 1 || !Holds(boundary.db, c, {DispatchFenced}) {
        boundary.db := saved;
        return Err(ConcurrencyConflict);
      }
      boundary.db := boundary.db.(outbox := boundary.db.outbox[c.rowId :=
        Unleased(boundary.db.outbox[c.rowId], Pending).(slots := 0)]);
      return Ok(());
    }

    method MarkPublicDeliveryManualReview(c: PublicClaim) returns (r: Result<()>)
      modifies boundary
      ensures r == if CanReview(old(boundary.db), c) then Ok(()) else Err(ConcurrencyConflict)
      ensures boundary.db == if r.Ok? then Reviewing(old(boundary.db), c) else old(boundary.db)
    {
      var saved := boundary.db;
      if !Holds(boundary.db, c, {Leased, DispatchFenced}) { return Err(ConcurrencyConflict); }
      boundary.db := boundary.db.(outbox := boundary.db.outbox[c.rowId :=
        Unleased(boundary.db.outbox[c.rowId], ManualReview)]);
      var touched := |Matching(boundary.db.authority, c.rowId, {Bound, AuthFenced})|;
      boundary.db := boundary.db.(authority :=
        Move(boundary.db.authority, c.rowId, {Bound, AuthFenced}, AuthManualReview, true));
      if touched != 1 {
        boundary.db := saved;
        return Err(ConcurrencyConflict);
      }
      return Ok(());
    }

    // ------------------------------------------------------ command relays

    method ClaimCommandRelay(worker: Id, now: Instant, ttl: int) returns (r: Result<Option<RelayClaim>>)
      modifies boundary
      ensures r.Err? ==> boundary.db == old(boundary.db)
      ensures ttl <= 0 ==> r == Err(ValueError)
      ensures ttl > 0 && now + ttl > MAX_INSTANT ==> r == Err(OverflowError)
      ensures ttl > 0 && now + ttl <= MAX_INSTANT ==>
                RelayOutcome(old(boundary.db), worker, now, now + ttl, boundary.db, r)
    {
      if ttl <= 0 { return Err(ValueError); }
      if now + ttl > MAX_INSTANT { return Err(OverflowError); }
      var expires: Instant := now + ttl;
      var saved := boundary.db;
      boundary.db := boundary.db.(relays := ReclaimedRelays(boundary.db.relays, now));
      var next := SelectRelay(boundary.db.relays);
      if next.None? { return Ok(None); }
      var p := next.value;
      var row := boundary.db.relays[p];
      boundary.db := boundary.db.(relays := LeasedRelays(boundary.db.relays, p, worker, now, expires));
      var refused := HashRefusal(ReservationBundleHash(row.content.bundle), row.content.bundleHash);
      if refused.Some? {
        boundary.db := saved;
        r := Err(refused.value);
      } else {
        r := Ok(Some(RelayClaimOf(p, row, worker, expires)));
      }
      assert RelayClaimed(saved, ReclaimedRelays(saved.relays, now), p, worker, now, expires, boundary.db, r);
    }

    method CompleteCommandRelay(c: RelayClaim, receipt: TargetReceipt, now: Instant) returns (r: Result<()>)
      modifies boundary
      ensures r == if now >= c.expiresAt then Err(ConcurrencyConflict)
                   else if !RelayReceiptMatches(c, receipt) then Err(IdentityConflict)
                   else if !HoldsRelay(old(boundary.db).relays, c) then Err(ConcurrencyConflict)
                   else Ok(())
      ensures boundary.db ==
              if r.Ok? then old(boundary.db).(relays := AckedRelays(old(boundary.db).relays, c, receipt, now))
              else old(boundary.db)
    {
      if now >= c.expiresAt { return Err(ConcurrencyConflict); }
      if !RelayReceiptMatches(c, receipt) { return Err(IdentityConflict); }
      if !HoldsRelay(boundary.db.relays, c) { return Err(ConcurrencyConflict); }
      boundary.db := boundary.db.(relays := AckedRelays(boundary.db.relays, c, receipt, now));
      return Ok(());
    }

    method ReleaseCommandRelay(c: RelayClaim) returns (r: Result<()>)
      modifies boundary
      ensures r == if HoldsRelay(old(boundary.db).relays, c) then Ok(()) else Err(ConcurrencyConflict)
      ensures boundary.db ==
              if r.Ok? then old(boundary.db).(relays := GivenUpRelays(old(boundary.db).relays, c))
              else old(boundary.db)
    {
      if !HoldsRelay(boundary.db.relays, c) { return Err(ConcurrencyConflict); }
      var row := boundary.db.relays[c.relayId];
      var failures := row.queue.failures + 1;
      var status := if failures >= 3 then QManualReview else QPending;
      boundary.db := boundary.db.(relays := boundary.db.relays[c.relayId :=
        row.(queue := Idle(row.queue, status).(failures := failures))]);
      return Ok(());
    }

    // ------------------------------------------------------- internal jobs

    method ClaimInternalJob(worker: Id, now: Instant, ttl: int) returns (r: Result<Option<JobClaim>>)
      modifies boundary
      ensures r.Err? ==> boundary.db == old(boundary.db)
      ensures ttl <= 0 ==> r == Err(ValueError)
      ensures ttl > 0 && now + ttl > MAX_INSTANT ==> r == Err(OverflowError)
      ensures ttl > 0 && now + ttl <= MAX_INSTANT ==>
                JobOutcome(old(boundary.db), worker, now, now + ttl, boundary.db, r)
    {
      if ttl <= 0 { return Err(ValueError); }
      if now + ttl > MAX_INSTANT { return Err(OverflowError); }
      var expires: Instant := now + ttl;
      var saved := boundary.db;
      boundary.db := boundary.db.(jobs := ReclaimedJobs(boundary.db.jobs, now));
      var next := SelectHandoff(boundary.db.jobs);
      if next.None? { return Ok(None); }
      var p := next.value;
      var row := boundary.db.jobs[p];
      ghost var t := boundary.db.jobs;
      boundary.db := boundary.db.(jobs := boundary.db.jobs[p :=
        row.(queue := Lease(row.queue, worker, now, expires))]);
      var refused := HashRefusal(HandoffBundleHash(row.content.bundle), row.content.artifactHash);
      if refused.Some? {
        boundary.db := saved;
        return Err(refused.value);
      }
      var jobs := boundary.db.jobs;
      TakenByOthers(t, jobs, p, HandoffOperation(row));
      if TargetTaken(jobs, p, HandoffOperation(row)) {
        boundary.db := saved;
        return Err(IntegrityError);
      }
      boundary.db := boundary.db.(jobs := jobs[p := jobs[p].(target := HandoffOperation(row))]);
      r := Ok(Some(JobClaimOf(p, row, worker, expires)));
      assert boundary.db.jobs == LeasedJobs(t, p, worker, now, expires);
      assert JobClaimed(saved, t, p, worker, now, expires, boundary.db, r);
    }

    method CompleteInternalJob(c: JobClaim, receipt: TargetReceipt, now: Instant) returns (r: Result<()>)
      modifies boundary
      ensures r == if now >= c.expiresAt then Err(ConcurrencyConflict)
                   else if !JobReceiptMatches(c, receipt) then Err(IdentityConflict)
                   else if !HoldsJob(old(boundary.db).jobs, c) then Err(ConcurrencyConflict)
                   else Ok(())
      ensures boundary.db ==
              if r.Ok? then old(boundary.db).(jobs := AckedJobs(old(boundary.db).jobs, c, receipt, now))
              else old(boundary.db)
    {
      if now >= c.expiresAt { return Err(ConcurrencyConflict); }
      if !JobReceiptMatches(c, receipt) { return Err(IdentityConflict); }
      if !HoldsJob(boundary.db.jobs, c) { return Err(ConcurrencyConflict); }
      boundary.db := boundary.db.(jobs := AckedJobs(boundary.db.jobs, c, receipt, now));
      return Ok(());
    }

    method ReleaseInternalJob(c: JobClaim) returns (r: Result<()>)
      modifies boundary
      ensures r == if HoldsJob(old(boundary.db).jobs, c) then Ok(()) else Err(ConcurrencyConflict)
      ensures boundary.db ==
              if r.Ok? then old(boundary.db).(jobs := GivenUpJobs(old(boundary.db).jobs, c))
              else old(boundary.db)
    {
      if !HoldsJob(boundary.db.jobs, c) { return Err(ConcurrencyConflict); }
      var row := boundary.db.jobs[c.jobId];
      var failures := row.queue.failures + 1;
      var status := if failures >= 3 then QManualReview else QPending;
      boundary.db := boundary.db.(jobs := boundary.db.jobs[c.jobId :=
        row.(queue := Idle(row.queue, status).(failures := failures))]);
      return Ok(());
    }
  }

  predicate NoneEligible(db: Db, now: Instant) {
    forall q {:trigger Eligible(db, now, q)} :: q in db.outbox ==> !Eligible(db, now, q)
  }

  /** What a relay claim returns and leaves behind; a bundle that fails its
      check undoes everything, the reclaiming included. */
  predicate RelayOutcome(db: Db, worker: Id, now: Instant, expires: Instant, after: Db, r: Result<Option<RelayClaim>>) {
    var t := ReclaimedRelays(db.relays, now);
    if NoRelayPending(t) then r == Ok(None) && after == db.(relays := t)
    else exists p :: p in t && FirstRelay(t, p) && RelayClaimed(db, t, p, worker, now, expires, after, r)
  }

  predicate RelayClaimed(db: Db, t: Relays, p: Id, worker: Id, now: Instant, expires: Instant,
                         after: Db, r: Result<Option<RelayClaim>>)
    requires p in t
  {
    var refused := RelayRefusal(t, p);
    if refused.Some? then r == Err(refused.value)
    else r == Ok(Some(RelayClaimOf(p, t[p], worker, expires)))
         && after == db.(relays := LeasedRelays(t, p, worker, now, expires))
  }

  predicate JobOutcome(db: Db, worker: Id, now: Instant, expires: Instant, after: Db, r: Result<Option<JobClaim>>) {
    var t := ReclaimedJobs(db.jobs, now);
    if NoHandoffPending(t) then r == Ok(None) && after == db.(jobs := t)
    else exists p :: p in t && FirstHandoff(t, p) && JobClaimed(db, t, p, worker, now, expires, after, r)
  }

  predicate JobClaimed(db: Db, t: Jobs, p: Id, worker: Id, now: Instant, expires: Instant,
                       after: Db, r: Result<Option<JobClaim>>)
    requires p in t
  {
    var refused := JobRefusal(t, p);
    if refused.Some? then r == Err(refused.value)
    else r == Ok(Some(JobClaimOf(p, t[p], worker, expires)))
         && after == db.(jobs := LeasedJobs(t, p, worker, now, expires))
  }

  predicate NoRelayPending(t: Relays) {
    forall p :: p in t ==> !RelayPending(t, p)
  }

  predicate NoHandoffPending(t: Jobs) {
    forall p :: p in t ==> !HandoffPending(t, p)
  }

  lemma TakenByOthers(t: Jobs, t': Jobs, p: Id, target: Digest)
    requires p in t && p in t' && t' == t[p := t'[p]]
    ensures TargetTaken(t', p, target) == TargetTaken(t, p, target)
  {
    forall q | q in t && q != p ensures t'[q] == t[q] {}
    if q :| q in t && q != p && t[q].target == target { assert t'[q].target == target; }
    if q :| q in t' && q != p && t'[q].target == target { assert t[q].target == target; }
  }

  method SelectRelay(t: Relays) returns (next: Option<Id>)
    ensures next.None? <==> NoRelayPending(t)
    ensures next.Some? ==> FirstRelay(t, next.value)
  {
    if NoRelayPending(t) { return None; }
    ghost var some :| some in t && RelayPending(t, some);
    ghost var ids := set p | p in t && RelayPending(t, p);
    assert some in ids;
    ghost var first := SomeIdIsFirst(ids);
    assert FirstRelay(t, first);
    var p :| p in t && FirstRelay(t, p);
    return Some(p);
  }

  method SelectHandoff(t: Jobs) returns (next: Option<Id>)
    ensures next.None? <==> NoHandoffPending(t)
    ensures next.Some? ==> FirstHandoff(t, next.value)
  {
    if NoHandoffPending(t) { return None; }
    ghost var some :| some in t && HandoffPending(t, some);
    ghost var ids := set p | p in t && HandoffPending(t, p);
    assert some in ids;
    ghost var first := SomeIdIsFirst(ids);
    assert FirstHandoff(t, first);
    var p :| p in t && FirstHandoff(t, p);
    return Some(p);
  }

  /** The claim query: the first eligible row in the query's order. */
  method SelectNext(db: Db, now: Instant) returns (next: Option<Id>)
    ensures next.None? <==> NoneEligible(db, now)
    ensures next.Some? ==> IsNext(db, now, next.value)
  {
    if forall q {:trigger Eligible(db, now, q)} :: q in db.outbox ==> !Eligible(db, now, q) { return None; }
    ghost var q :| q in db.outbox && Eligible(db, now, q);
    ghost var first := NextExists(db, now, q);
    var p :| p in db.outbox && IsNext(db, now, p);
    return Some(p);
  }

  /** The outcome of a claim that found row `p` first in the query's order:
      a stored chunk that cannot be decoded undoes everything, recovery included. */
  predicate Claimed(db1: Db, p: Id, worker: Id, now: Instant, expires: Instant,
                    after: Db, r: Result<Option<PublicClaim>>)
    requires p in db1.outbox
  {
    if db1.outbox[p].content.chunkJson.Corrupt? then r == Err(ValueError)
    else after == Leasing(db1, p, worker, now, expires) && r == Ok(Some(ClaimOf(p, db1.outbox[p], worker, expires)))
  }

  // ---- the recovery statements, on the two tables they touch

  type Outbox = map<Id, PublicRow>
  type Authority = map<AuthKey, AuthRow>

  function UncertainRows(outbox: Outbox, now: Instant): set<Id> {
    set p | p in outbox && Uncertain(outbox[p], now)
  }

  function OverdueRows(outbox: Outbox, now: Instant): set<Id> {
    set p | p in outbox && Overdue(outbox[p], now)
  }

  function QuarantinedRows(outbox: Outbox, done: set<Id>): Outbox {
    map p | p in outbox :: if p in done then Unleased(outbox[p], ManualReview) else outbox[p]
  }

  function ReclaimedRows(outbox: Outbox, now: Instant): Outbox {
    map p | p in outbox :: Reclaimed(outbox[p], now)
  }

  function CancelledRows(outbox: Outbox, done: set<Id>): Outbox {
    map p | p in outbox :: if p in done then outbox[p].(status := Cancelled) else outbox[p]
  }

  /** Allocations in `state` of the public rows in `done` have moved to `target`. */
  function MovedAll(auth: Authority, done: set<Id>, state: AuthState, target: AuthState): Authority {
    map k | k in auth :: MovedIf(auth[k], done, state, target)
  }

  function MovedIf(a: AuthRow, done: set<Id>, state: AuthState, target: AuthState): AuthRow {
    if a.publicRow.Some? && a.publicRow.value in done && a.state == state then Moved(a, target, false) else a
  }

  lemma NoneMoved(outbox: Outbox, auth: Authority, state: AuthState, target: AuthState)
    ensures QuarantinedRows(outbox, {}) == outbox && CancelledRows(outbox, {}) == outbox
    ensures MovedAll(auth, {}, state, target) == auth
  {
  }

  lemma OneMoreMoved(auth: Authority, done: set<Id>, p: Id, state: AuthState, target: AuthState)
    requires state != target
    ensures MovedAll(auth, done + {p}, state, target) == Move(MovedAll(auth, done, state, target), p, {state}, target, false)
  {
  }

  lemma OneMoreQuarantined(outbox: Outbox, done: set<Id>, p: Id)
    requires p in outbox && p !in done
    ensures var q := QuarantinedRows(outbox, done);
            q[p] == outbox[p] && QuarantinedRows(outbox, done + {p}) == q[p := Unleased(q[p], ManualReview)]
  {
  }

  /** The tables after the first loop handled these rows. */
  function Quarantined(db: Db, rows: set<Id>): Db {
    db.(outbox := QuarantinedRows(db.outbox, rows), authority := MovedAll(db.authority, rows, AuthFenced, AuthManualReview))
  }

  /** One turn of the first loop. */
  function QuarantinedRow(db: Db, p: Id): Db {
    db.(authority := Move(db.authority, p, {AuthFenced}, AuthManualReview, false),
        outbox := if p in db.outbox && db.outbox[p].status == DispatchFenced
                  then db.outbox[p := Unleased(db.outbox[p], ManualReview)] else db.outbox)
  }

  lemma QuarantinedNext(db: Db, done: set<Id>, p: Id)
    requires p in db.outbox && db.outbox[p].status == DispatchFenced && p !in done
    ensures QuarantinedRow(Quarantined(db, done), p) == Quarantined(db, done + {p})
  {
    OneMoreMoved(db.authority, done, p, AuthFenced, AuthManualReview);
    OneMoreQuarantined(db.outbox, done, p);
  }

  /** The tables after the second loop handled these rows. */
  function WithoutOverdue(db: Db, rows: set<Id>): Db {
    db.(outbox := CancelledRows(db.outbox, rows), authority := MovedAll(db.authority, rows, Bound, Closed))
  }

  /** One turn of the second loop. */
  function OverdueRow(db: Db, p: Id): Db {
    db.(authority := Move(db.authority, p, {Bound}, Closed, false),
        outbox := if p in db.outbox && db.outbox[p].status == Pending
                  then db.outbox[p := db.outbox[p].(status := Cancelled)] else db.outbox)
  }

  lemma OverdueNext(db: Db, done: set<Id>, p: Id)
    requires p in db.outbox && db.outbox[p].status == Pending && p !in done
    ensures OverdueRow(WithoutOverdue(db, done), p) == WithoutOverdue(db, done + {p})
  {
    OneMoreMoved(db.authority, done, p, Bound, Closed);
    OneMoreCancelled(db.outbox, done, p);
  }

  lemma OneMoreCancelled(outbox: Outbox, done: set<Id>, p: Id)
    requires p in outbox && p !in done
    ensures var q := CancelledRows(outbox, done);
            q[p] == outbox[p] && CancelledRows(outbox, done + {p}) == q[p := q[p].(status := Cancelled)]
  {
  }

  /** What the second loop finds and leaves, for a public row. */
  lemma RowInPasses(outbox: Outbox, now: Instant, p: Id)
    requires p in outbox
    ensures var outbox2 := ReclaimedRows(QuarantinedRows(outbox, UncertainRows(outbox, now)), now);
            && p in outbox2
            && (p in OverdueRows(outbox2, now) <==> !Uncertain(outbox[p], now) && Overdue(Reclaimed(outbox[p], now), now))
            && CancelledRows(outbox2, OverdueRows(outbox2, now))[p] == RecoverRow(outbox[p], now)
  {
    var outbox1 := QuarantinedRows(outbox, UncertainRows(outbox, now));
    assert outbox1[p] == if Uncertain(outbox[p], now) then Unleased(outbox[p], ManualReview) else outbox[p];
    var outbox2 := ReclaimedRows(outbox1, now);
    assert outbox2[p] == Reclaimed(outbox1[p], now);
  }

  /** The recovery pass has the row-by-row effect of `Recover`. */
  lemma RecoverInPasses(outbox: Outbox, auth: Authority, now: Instant)
    ensures var uncertain := UncertainRows(outbox, now);
            var outbox2 := ReclaimedRows(QuarantinedRows(outbox, uncertain), now);
            var overdue := OverdueRows(outbox2, now);
            && CancelledRows(outbox2, overdue) == (map p | p in outbox :: RecoverRow(outbox[p], now))
            && MovedAll(MovedAll(auth, uncertain, AuthFenced, AuthManualReview), overdue, Bound, Closed)
               == (map k | k in auth :: RecoverAuth(outbox, auth[k], now))
  {
    var uncertain := UncertainRows(outbox, now);
    var outbox2 := ReclaimedRows(QuarantinedRows(outbox, uncertain), now);
    var overdue := OverdueRows(outbox2, now);
    forall p | p in outbox ensures CancelledRows(outbox2, overdue)[p] == RecoverRow(outbox[p], now) {
      RowInPasses(outbox, now, p);
    }
    forall k | k in auth
      ensures MovedIf(MovedIf(auth[k], uncertain, AuthFenced, AuthManualReview), overdue, Bound, Closed)
              == RecoverAuth(outbox, auth[k], now)
    {
      var a := auth[k];
      if a.publicRow.Some? && a.publicRow.value in outbox { RowInPasses(outbox, now, a.publicRow.value); }
    }
  }
}
