/** What one step of the system can do to a single row, whoever takes it. */
module RowSteps {
  import opened Options
  import opened Tables
  import opened TurnWrites
  import opened TurnCommit
  import opened PublicQueue
  import opened QueueInvariant
  import opened LeaseQueue
  import opened CommitInvariant
  import opened Steps
  import opened StepInvariant

  // ---------------------------------------------------------- public rows

  function PublicAt(db: Db, p: Id): Option<PublicRow> {
    if p in db.outbox then Some(db.outbox[p]) else None
  }

  /** A change of status that no worker reports as its own. */
  predicate QuietMove(s: PublicStatus, t: PublicStatus) {
    || s == t
    || (s == Leased && (t == Pending || t == Cancelled || t == ManualReview))
    || (s == Pending && t == Cancelled)
    || (s == DispatchFenced && t == ManualReview)
  }

  predicate Concerns(e: Event, p: Id) {
    e == Event.Claimed(p) || e == Fenced(p) || e == Released(p) || e == Accepted(p)
  }

  /** Nobody else's lease: owner, times and token are those the row had. */
  predicate LeaseKept(a: PublicRow, b: PublicRow) {
    && b.fencingToken == a.fencingToken && b.claimCount == a.claimCount
    && (InFlight(b.status) ==> b.owner == a.owner && b.acquiredAt == a.acquiredAt && b.expiresAt == a.expiresAt)
  }

  /** The life of a public row, as one step moves it. */
  predicate RowMove(p: Id, a: PublicRow, b: PublicRow, e: Event) {
    && b.turn == a.turn && b.content == a.content
    && if e == Event.Claimed(p) then
         (a.status == Pending || a.status == Leased) && b.status == Leased
         && b.fencingToken == a.fencingToken + 1 && b.claimCount == a.claimCount + 1
         && b.slots == a.slots && b.deliveryReceipt == a.deliveryReceipt
       else
         && LeaseKept(a, b)
         && if e == Fenced(p) then
              a.status == Leased && b.status == DispatchFenced && a.slots == 0 && b.slots == 1
              && b.deliveryReceipt == a.deliveryReceipt
            else if e == Released(p) then
              a.status == DispatchFenced && b.status == Pending && a.slots == 1 && b.slots == 0
              && b.deliveryReceipt == a.deliveryReceipt
            else if e == Accepted(p) then
              a.status == DispatchFenced && b.status == Delivered && b.slots == a.slots
              && a.deliveryReceipt.None? && b.deliveryReceipt.Some?
            else
              QuietMove(a.status, b.status) && b.slots == a.slots && b.deliveryReceipt == a.deliveryReceipt
  }

  predicate FreshRow(r: PublicRow) {
    r.status == Pending && r.claimCount == 0 && r.slots == 0 && r.deliveryReceipt.None?
  }

  predicate RowStep(p: Id, r: Option<PublicRow>, r': Option<PublicRow>, e: Event) {
    if r.None? then !Concerns(e, p) && (r'.Some? ==> e.Advanced? && r'.value.turn == e.w.Key() && FreshRow(r'.value))
    else r'.Some? && RowMove(p, r.value, r'.value, e)
  }

  lemma RecoverRowMoves(p: Id, r: PublicRow, now: Instant, e: Event)
    requires !Concerns(e, p)
    ensures RowMove(p, r, RecoverRow(r, now), e)
  {
  }

  lemma ClaimMovesRow(db: Db, worker: Id, now: Instant, expires: Instant, db': Db, e: Event, p: Id)
    requires ClaimEffect(db, worker, now, expires, db', e)
    ensures RowStep(p, PublicAt(db, p), PublicAt(db', p), e)
  {
    if p in db.outbox {
      RecoverRowMoves(p, db.outbox[p], now, Quiet);
    }
  }

  lemma FenceMovesRow(db: Db, c: PublicClaim, now: Instant, p: Id)
    requires TwoTables(db) && CanFence(db, c, now)
    ensures RowStep(p, PublicAt(db, p), PublicAt(Fencing(db, c, now), p), Fenced(c.rowId))
  {
    assert Linked(db, c.rowId);
  }

  lemma CompleteMovesRow(db: Db, c: PublicClaim, receipt: AcceptanceReceipt, now: Instant, p: Id)
    requires TwoTables(db) && CanComplete(db, c, receipt, now)
    ensures RowStep(p, PublicAt(db, p), PublicAt(Completing(db, c, receipt), p), Accepted(c.rowId))
  {
    assert Linked(db, c.rowId);
  }

  lemma ReleaseMovesRow(db: Db, c: PublicClaim, p: Id)
    requires TwoTables(db) && CanRelease(db, c)
    ensures RowStep(p, PublicAt(db, p), PublicAt(Releasing(db, c), p), Released(c.rowId))
  {
    assert Linked(db, c.rowId);
  }

  lemma ReviewMovesRow(db: Db, c: PublicClaim, p: Id)
    requires CanReview(db, c)
    ensures RowStep(p, PublicAt(db, p), PublicAt(Reviewing(db, c), p), Quiet)
  {
  }

  lemma StillRow(db: Db, db': Db, p: Id, e: Event)
    requires db'.outbox == db.outbox && !Concerns(e, p)
    ensures RowStep(p, PublicAt(db, p), PublicAt(db', p), e)
  {
  }

  lemma PublicStepMovesRow(db: Db, s: PublicStep, db': Db, e: Event, p: Id)
    requires TwoTables(db) && PublicStepTo(db, s, db', e)
    ensures RowStep(p, PublicAt(db, p), PublicAt(db', p), e)
  {
    match s
    case ClaimPublic(worker, now, ttl) =>
      ClaimHasEffect(db, worker, now, ttl, db', e);
      ClaimMovesRow(db, worker, now, if BadLease(now, ttl) then now else now + ttl, db', e, p);
    case FencePublic(c, now) =>
      if CanFence(db, c, now) { FenceMovesRow(db, c, now, p); } else { StillRow(db, db', p, e); }
    case CompletePublic(c, receipt, now) =>
      if CanComplete(db, c, receipt, now) { CompleteMovesRow(db, c, receipt, now, p); } else { StillRow(db, db', p, e); }
    case ReleasePublic(c) =>
      if CanRelease(db, c) { ReleaseMovesRow(db, c, p); } else { StillRow(db, db', p, e); }
    case ReviewPublic(c) =>
      if CanReview(db, c) { ReviewMovesRow(db, c, p); } else { StillRow(db, db', p, e); }
  }

  /** Staying as it is, or being cancelled before it is sent, is a quiet move. */
  lemma QuietRowMoves(p: Id, r: PublicRow, e: Event)
    requires !Concerns(e, p)
    ensures RowMove(p, r, r, e)
    ensures r.status == Pending || r.status == Leased ==> RowMove(p, r, CancelledRow(r), e)
  {
  }

  lemma CommitKeepsOldRow(db: Db, w: TurnWrite, p: Id)
    requires Shape(db) && WritesValid(w) && Accepts(db, w) && p in db.outbox
    ensures p in Committed(db, w).outbox
    ensures Committed(db, w).outbox[p] == db.outbox[p]
            || ((db.outbox[p].status == Pending || db.outbox[p].status == Leased)
                && Committed(db, w).outbox[p] == CancelledRow(db.outbox[p]))
  {
    CommittedGainsRows(db, w);
    if IsSuperseded(db.outbox[p], w) { SupersededRow(db, w, p); }
    assert Committed(db, w).outbox[p] == Cancelling(db, w).outbox[p];
  }

  lemma CommitMovesOldRow(db: Db, w: TurnWrite, p: Id)
    requires Shape(db) && WritesValid(w) && Accepts(db, w) && p in db.outbox
    ensures RowStep(p, PublicAt(db, p), PublicAt(Committed(db, w), p), Advanced(w))
  {
    CommitKeepsOldRow(db, w, p);
    QuietRowMoves(p, db.outbox[p], Advanced(w));
  }

  lemma CommitAddsRow(db: Db, w: TurnWrite, p: Id)
    requires Shape(db) && WritesValid(w) && Accepts(db, w) && p !in db.outbox
    ensures RowStep(p, PublicAt(db, p), PublicAt(Committed(db, w), p), Advanced(w))
  {
    CommittedGainsRows(db, w);
    if p in Committed(db, w).outbox {
      var i: nat :| IsRow(w, i, p);
      assert Committed(db, w).outbox[p] == NewPublic(w, i);
    }
  }

  lemma CommitMovesRow(db: Db, w: TurnWrite, p: Id)
    requires Shape(db) && WritesValid(w) && Accepts(db, w)
    ensures RowStep(p, PublicAt(db, p), PublicAt(Committed(db, w), p), Advanced(w))
  {
    if p in db.outbox { CommitMovesOldRow(db, w, p); } else { CommitAddsRow(db, w, p); }
  }

  lemma TurnStepMovesRow(db: Db, s: TurnStep, db': Db, e: Event, p: Id)
    requires Shape(db) && TurnStepTo(db, s, db', e)
    ensures RowStep(p, PublicAt(db, p), PublicAt(db', p), e)
  {
    if s.CommitTurn? && Accepts(db, s.w) {
      CommitMovesRow(db, s.w, p);
    } else {
      StillRow(db, db', p, e);
    }
  }

  lemma RelayStepStillRow(db: Db, s: RelayStep, db': Db, e: Event, p: Id)
    requires RelayStepTo(db, s, db', e)
    ensures RowStep(p, PublicAt(db, p), PublicAt(db', p), e)
  {
    RelayStepFrame(db, s, db', e);
    StillRow(db, db', p, e);
  }

  lemma JobStepStillRow(db: Db, s: JobStep, db': Db, e: Event, p: Id)
    requires JobStepTo(db, s, db', e)
    ensures RowStep(p, PublicAt(db, p), PublicAt(db', p), e)
  {
    JobStepFrame(db, s, db', e);
    StillRow(db, db', p, e);
  }

  lemma StepMovesRow(db: Db, s: Step, db': Db, e: Event, p: Id)
    requires QueueInv(db) && StepTo(db, s, db', e)
    ensures RowStep(p, PublicAt(db, p), PublicAt(db', p), e)
  {
    match s
    case OnTurn(t) => TurnStepMovesRow(db, t, db', e, p);
    case OnPublic(s) => PublicStepMovesRow(db, s, db', e, p);
    case OnRelay(r) => RelayStepStillRow(db, r, db', e, p);
    case OnJob(j) => JobStepStillRow(db, j, db', e, p);
  }

  // ------------------------------------------------------- relays and jobs

  function RelayAt(db: Db, p: Id): Option<QueueState> {
    if p in db.relays then Some(db.relays[p].queue) else None
  }

  function JobAt(db: Db, p: Id): Option<QueueState> {
    if p in db.jobs then Some(db.jobs[p].queue) else None
  }

  /** The life of a relay or job row: `claimed` and `acked` say what this step did to it. */
  predicate QueueMove(q: QueueState, q': QueueState, claimed: bool, acked: bool) {
    if claimed then
      !acked && (q.status == QPending || q.status == QLeased) && q'.status == QLeased
      && q'.fencingToken == q.fencingToken + 1 && q'.targetReceipt == q.targetReceipt && q'.failures == q.failures
    else
      && q'.fencingToken == q.fencingToken
      && (q'.status == QLeased ==> q'.owner == q.owner && q'.acquiredAt == q.acquiredAt && q'.expiresAt == q.expiresAt)
      && if acked then q.status == QLeased && q'.status == QAcked && q'.failures == q.failures
         else
           && q'.targetReceipt == q.targetReceipt
           && (q'.status == q.status || (q.status == QLeased && (q'.status == QPending || q'.status == QManualReview)))
           && q.failures <= q'.failures
  }

  predicate QueueStep(q: Option<QueueState>, q': Option<QueueState>, claimed: bool, acked: bool) {
    if q.None? then !claimed && !acked && (q'.Some? ==> q'.value == FRESH_QUEUE)
    else q'.Some? && QueueMove(q.value, q'.value, claimed, acked)
  }

  lemma RelayStepMovesRow(db: Db, s: RelayStep, db': Db, e: Event, p: Id)
    requires RelayStepTo(db, s, db', e)
    ensures QueueStep(RelayAt(db, p), RelayAt(db', p), e == RelayClaimed(p), e == RelayAcked(p))
  {
    if s.ClaimRelay? { RelayClaimMovesRow(db, s, db', e, p); }
  }

  lemma RelayClaimMovesRow(db: Db, s: RelayStep, db': Db, e: Event, p: Id)
    requires RelayStepTo(db, s, db', e) && s.ClaimRelay?
    ensures QueueStep(RelayAt(db, p), RelayAt(db', p), e == RelayClaimed(p), e == RelayAcked(p))
  {
  }

  lemma JobClaimMovesRow(db: Db, worker: Id, now: Instant, expires: Instant, db': Db, e: Event, p: Id)
    requires JobClaimEffect(db, worker, now, expires, db', e) && !e.JobAcked?
    ensures QueueStep(JobAt(db, p), JobAt(db', p), e == JobClaimed(p), false)
  {
  }

  lemma JobStepMovesRow(db: Db, s: JobStep, db': Db, e: Event, p: Id)
    requires JobStepTo(db, s, db', e)
    ensures QueueStep(JobAt(db, p), JobAt(db', p), e == JobClaimed(p), e == JobAcked(p))
  {
    if s.ClaimJob? {
      var expires := if BadLease(s.now, s.ttl) then s.now else s.now + s.ttl;
      JobClaimHasEffect(db, s.worker, s.now, s.ttl, db', e);
      JobClaimMovesRow(db, s.worker, s.now, expires, db', e, p);
    }
  }

  lemma {:induction false} NewRelayFresh(t: Relays, w: TurnWrite, n: nat, p: Id)
    requires n <= |w.relays| && RelaysInsertable(t, w, n)
    ensures p in t ==> p in WithRelays(t, w, n) && WithRelays(t, w, n)[p] == t[p]
    ensures p !in t && p in WithRelays(t, w, n) ==>
              WithRelays(t, w, n)[p].queue == FRESH_QUEUE && WithRelays(t, w, n)[p].turn == w.Key()
  {
    if n > 0 {
      NewRelayFresh(t, w, n - 1, p);
      assert RelayInsertable(WithRelays(t, w, n - 1), w, n - 1);
    }
  }

  lemma {:induction false} NewJobFresh(t: Jobs, w: TurnWrite, n: nat, p: Id)
    requires n <= |w.jobs| && JobsInsertable(t, w, n)
    ensures p in t ==> p in WithJobs(t, w, n) && WithJobs(t, w, n)[p] == t[p]
    ensures p !in t && p in WithJobs(t, w, n) ==>
              WithJobs(t, w, n)[p].queue == FRESH_QUEUE && WithJobs(t, w, n)[p].turn == w.Key()
  {
    if n > 0 {
      NewJobFresh(t, w, n - 1, p);
      assert JobInsertable(WithJobs(t, w, n - 1), w, n - 1);
    }
  }

  lemma TurnStepMovesRelay(db: Db, s: TurnStep, db': Db, e: Event, p: Id)
    requires TurnStepTo(db, s, db', e)
    ensures QueueStep(RelayAt(db, p), RelayAt(db', p), false, false)
  {
    if s.CommitTurn? && Accepts(db, s.w) {
      NewRelayFresh(db.relays, s.w, |s.w.relays|, p);
    } else {
      assert db'.relays == db.relays;
      StillQueue(RelayAt(db, p));
    }
  }

  lemma TurnStepMovesJob(db: Db, s: TurnStep, db': Db, e: Event, p: Id)
    requires TurnStepTo(db, s, db', e)
    ensures QueueStep(JobAt(db, p), JobAt(db', p), false, false)
  {
    if s.CommitTurn? && Accepts(db, s.w) {
      NewJobFresh(db.jobs, s.w, |s.w.jobs|, p);
    } else {
      assert db'.jobs == db.jobs;
      StillQueue(JobAt(db, p));
    }
  }

  lemma TurnStepClaimsNothing(db: Db, s: TurnStep, db': Db, e: Event)
    requires TurnStepTo(db, s, db', e)
    ensures !e.RelayClaimed? && !e.RelayAcked? && !e.JobClaimed? && !e.JobAcked?
  {
  }

  lemma PublicStepKeepsQueues(db: Db, s: PublicStep, db': Db, e: Event)
    requires PublicStepTo(db, s, db', e)
    ensures db'.relays == db.relays && db'.jobs == db.jobs
    ensures !e.RelayClaimed? && !e.RelayAcked? && !e.JobClaimed? && !e.JobAcked?
  {
    PublicStepFrame(db, s, db', e);
  }

  lemma RelayStepKeepsJobs(db: Db, s: RelayStep, db': Db, e: Event)
    requires RelayStepTo(db, s, db', e)
    ensures db'.jobs == db.jobs && !e.JobClaimed? && !e.JobAcked?
  {
    RelayStepFrame(db, s, db', e);
  }

  lemma JobStepKeepsRelays(db: Db, s: JobStep, db': Db, e: Event)
    requires JobStepTo(db, s, db', e)
    ensures db'.relays == db.relays && !e.RelayClaimed? && !e.RelayAcked?
  {
    JobStepFrame(db, s, db', e);
  }

  lemma StillQueue(q: Option<QueueState>)
    ensures QueueStep(q, q, false, false)
  {
  }

  lemma StepMovesRelay(db: Db, s: Step, db': Db, e: Event, p: Id)
    requires StepTo(db, s, db', e)
    ensures QueueStep(RelayAt(db, p), RelayAt(db', p), e == RelayClaimed(p), e == RelayAcked(p))
  {
    match s
    case OnTurn(t) => TurnStepMovesRelay(db, t, db', e, p); TurnStepClaimsNothing(db, t, db', e);
    case OnPublic(a) => PublicStepKeepsQueues(db, a, db', e); StillQueue(RelayAt(db, p));
    case OnRelay(r) => RelayStepMovesRow(db, r, db', e, p);
    case OnJob(j) => JobStepKeepsRelays(db, j, db', e); StillQueue(RelayAt(db, p));
  }

  lemma StepMovesJob(db: Db, s: Step, db': Db, e: Event, p: Id)
    requires StepTo(db, s, db', e)
    ensures QueueStep(JobAt(db, p), JobAt(db', p), e == JobClaimed(p), e == JobAcked(p))
  {
    match s
    case OnTurn(t) => TurnStepMovesJob(db, t, db', e, p); TurnStepClaimsNothing(db, t, db', e);
    case OnPublic(a) => PublicStepKeepsQueues(db, a, db', e); StillQueue(JobAt(db, p));
    case OnRelay(r) => RelayStepKeepsJobs(db, r, db', e); StillQueue(JobAt(db, p));
    case OnJob(j) => JobStepMovesRow(db, j, db', e, p);
  }
}
