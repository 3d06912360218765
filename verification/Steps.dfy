/** One call on the store by a coordinator or a worker, as a step of the whole
    system, and the event it contributes to the run's log. */
module Steps {
  import opened Tables
  import opened TurnWrites
  import opened TurnCommit
  import opened PublicQueue
  import opened LeaseQueue
  import opened BoundaryStore
  import opened WorkerStore

  datatype TurnStep =
    | InstallAllocation(k: AuthKey, a: AuthRow)
    | CreateGenesis(lead: Id)
    | ImportGenesis(i: Import)
    | AcquireFence(lead: Id)
    | CommitTurn(w: TurnWrite)

  datatype PublicStep =
    | ClaimPublic(worker: Id, now: Instant, ttl: int)
    | FencePublic(c: PublicClaim, now: Instant)
    | CompletePublic(c: PublicClaim, receipt: AcceptanceReceipt, now: Instant)
    | ReleasePublic(c: PublicClaim)
    | ReviewPublic(c: PublicClaim)

  datatype RelayStep =
    | ClaimRelay(worker: Id, now: Instant, ttl: int)
    | CompleteRelay(relay: RelayClaim, target: TargetReceipt, now: Instant)
    | ReleaseRelay(relay: RelayClaim)

  datatype JobStep =
    | ClaimJob(worker: Id, now: Instant, ttl: int)
    | CompleteJob(job: JobClaim, target: TargetReceipt, now: Instant)
    | ReleaseJob(job: JobClaim)

  datatype Step = OnTurn(turn: TurnStep) | OnPublic(public: PublicStep) | OnRelay(relay: RelayStep) | OnJob(job: JobStep)

  /** What a step did, as far as the theorems count it. */
  datatype Event =
    | Quiet
    | FenceAcquired(lead: Id)
    | Advanced(w: TurnWrite)
    | Claimed(p: Id)
    | Fenced(p: Id)
    | Accepted(p: Id)
    | Released(p: Id)
    | RelayClaimed(p: Id)
    | RelayAcked(p: Id)
    | JobClaimed(p: Id)
    | JobAcked(p: Id)

  /** Authority rows are created outside this store, unbound. */
  predicate CanInstall(db: Db, k: AuthKey, a: AuthRow) {
    k !in db.authority && AuthRowCheck(k, a) && a.publicRow.None?
  }

  predicate BadLease(now: Instant, ttl: int) {
    ttl <= 0 || now + ttl > MAX_INSTANT
  }

  /** The event names the row a claim leased. A claim that leased nothing found
      nothing, or found a first row it had to refuse, and then undid its recovery. */
  predicate PublicClaimTo(db: Db, worker: Id, now: Instant, expires: Instant, db': Db, e: Event) {
    var db1 := Recover(db, now);
    match e
    case Claimed(p) => IsNext(db1, now, p) && db' == Leasing(db1, p, worker, now, expires)
    case Quiet => if NoneEligible(db1, now) then db' == db1 else db' == db && HeadCorrupt(db1, now)
    case _ => false
  }

  predicate HeadCorrupt(db: Db, now: Instant) {
    exists p :: p in db.outbox && IsNext(db, now, p) && db.outbox[p].content.chunkJson.Corrupt?
  }

  predicate RelayClaimTo(db: Db, worker: Id, now: Instant, expires: Instant, db': Db, e: Event) {
    var t := ReclaimedRelays(db.relays, now);
    match e
    case RelayClaimed(p) => FirstRelay(t, p) && db' == db.(relays := LeasedRelays(t, p, worker, now, expires))
    case Quiet => if NoRelayPending(t) then db' == db.(relays := t) else db' == db && HeadRelayRefused(t)
    case _ => false
  }

  predicate HeadRelayRefused(t: Relays) {
    exists p :: p in t && FirstRelay(t, p) && RelayRefusal(t, p).Some?
  }

  predicate JobClaimTo(db: Db, worker: Id, now: Instant, expires: Instant, db': Db, e: Event) {
    var t := ReclaimedJobs(db.jobs, now);
    match e
    case JobClaimed(p) => FirstHandoff(t, p) && JobRefusal(t, p).None? && db' == db.(jobs := LeasedJobs(t, p, worker, now, expires))
    case Quiet => if NoHandoffPending(t) then db' == db.(jobs := t) else db' == db && HeadJobRefused(t)
    case _ => false
  }

  predicate HeadJobRefused(t: Jobs) {
    exists p :: p in t && FirstHandoff(t, p) && JobRefusal(t, p).Some?
  }

  predicate Unchanged(db: Db, db': Db, e: Event) {
    db' == db && e == Quiet
  }

  predicate TurnStepTo(db: Db, s: TurnStep, db': Db, e: Event) {
    match s
    case InstallAllocation(k, a) =>
      if CanInstall(db, k, a) then db' == db.(authority := db.authority[k := a]) && e == Quiet
      else Unchanged(db, db', e)
    case CreateGenesis(lead) =>
      if lead in db.states then Unchanged(db, db', e) else db' == Genesis(db, lead) && e == Quiet
    case ImportGenesis(i) =>
      if ImportRefusal(db.states, db.claims, i).None? && i.state.leadKey !in db.claims
      then db' == Imported(db, i) && e == Quiet else Unchanged(db, db', e)
    case AcquireFence(lead) =>
      if lead in db.states && LoadVersioned(db.states[lead], lead).Ok?
      then db' == Acquired(db, lead) && e == FenceAcquired(lead)
      else Unchanged(db, db', e)
    case CommitTurn(w) =>
      && WritesValid(w)
      && if Accepts(db, w) then db' == Committed(db, w) && e == Advanced(w) else Unchanged(db, db', e)
  }

  predicate PublicStepTo(db: Db, s: PublicStep, db': Db, e: Event) {
    match s
    case ClaimPublic(worker, now, ttl) =>
      if BadLease(now, ttl) then Unchanged(db, db', e) else PublicClaimTo(db, worker, now, now + ttl, db', e)
    case FencePublic(c, now) =>
      if CanFence(db, c, now) then db' == Fencing(db, c, now) && e == Fenced(c.rowId)
      else Unchanged(db, db', e)
    case CompletePublic(c, receipt, now) =>
      if CanComplete(db, c, receipt, now) then db' == Completing(db, c, receipt) && e == Accepted(c.rowId)
      else Unchanged(db, db', e)
    case ReleasePublic(c) =>
      if CanRelease(db, c) then db' == Releasing(db, c) && e == Released(c.rowId) else Unchanged(db, db', e)
    case ReviewPublic(c) =>
      if CanReview(db, c) then db' == Reviewing(db, c) && e == Quiet else Unchanged(db, db', e)
  }

  predicate RelayStepTo(db: Db, s: RelayStep, db': Db, e: Event) {
    match s
    case ClaimRelay(worker, now, ttl) =>
      if BadLease(now, ttl) then Unchanged(db, db', e) else RelayClaimTo(db, worker, now, now + ttl, db', e)
    case CompleteRelay(c, receipt, now) =>
      if now < c.expiresAt && RelayReceiptMatches(c, receipt) && HoldsRelay(db.relays, c)
      then db' == db.(relays := AckedRelays(db.relays, c, receipt, now)) && e == RelayAcked(c.relayId)
      else Unchanged(db, db', e)
    case ReleaseRelay(c) =>
      if HoldsRelay(db.relays, c) then db' == db.(relays := GivenUpRelays(db.relays, c)) && e == Quiet
      else Unchanged(db, db', e)
  }

  predicate JobStepTo(db: Db, s: JobStep, db': Db, e: Event) {
    match s
    case ClaimJob(worker, now, ttl) =>
      if BadLease(now, ttl) then Unchanged(db, db', e) else JobClaimTo(db, worker, now, now + ttl, db', e)
    case CompleteJob(c, receipt, now) =>
      if now < c.expiresAt && JobReceiptMatches(c, receipt) && HoldsJob(db.jobs, c)
      then db' == db.(jobs := AckedJobs(db.jobs, c, receipt, now)) && e == JobAcked(c.jobId)
      else Unchanged(db, db', e)
    case ReleaseJob(c) =>
      if HoldsJob(db.jobs, c) then db' == db.(jobs := GivenUpJobs(db.jobs, c)) && e == Quiet
      else Unchanged(db, db', e)
  }

  /** The step takes the store from `db` to `db'` and reports `e`. */
  predicate StepTo(db: Db, s: Step, db': Db, e: Event) {
    match s
    case OnTurn(t) => TurnStepTo(db, t, db', e)
    case OnPublic(p) => PublicStepTo(db, p, db', e)
    case OnRelay(r) => RelayStepTo(db, r, db', e)
    case OnJob(j) => JobStepTo(db, j, db', e)
  }

  /** Only an accepted commit advances a lead. */
  lemma OnlyCommitAdvances(db: Db, s: Step, db': Db, w: TurnWrite)
    requires StepTo(db, s, db', Advanced(w))
    ensures WritesValid(w) && Accepts(db, w) && db' == Committed(db, w)
  {
  }

  // ------------------------------------- every step is a call of the real API

  method CallTurn(store: SQLiteBoundaryStore, s: TurnStep) returns (e: Event)
    requires VersionsUnique(store.db.events) && (s.CommitTurn? ==> WritesValid(s.w))
    modifies store
    ensures TurnStepTo(old(store.db), s, store.db, e)
  {
    match s
    case InstallAllocation(k, a) =>
      if CanInstall(store.db, k, a) { store.db := store.db.(authority := store.db.authority[k := a]); }
      e := Quiet;
    case CreateGenesis(lead) =>
      var r := store.CreateGenesis(lead);
      e := Quiet;
    case ImportGenesis(i) =>
      var r := store.ImportGenesis(i);
      e := Quiet;
    case AcquireFence(lead) =>
      var r := store.AcquireFence(lead);
      e := if r.Ok? then FenceAcquired(lead) else Quiet;
    case CommitTurn(w) =>
      ghost var before := store.db;
      var replay := w.Key() in store.db.events;
      var r := store.CommitTurnV8(w);
      e := if r.Ok? && !replay then Advanced(w) else Quiet;
  }

  method CallPublicClaim(worker: SQLiteBoundaryWorkerStore, id: Id, now: Instant, ttl: int) returns (e: Event)
    modifies worker.boundary
    ensures if BadLease(now, ttl) then Unchanged(old(worker.boundary.db), worker.boundary.db, e)
            else PublicClaimTo(old(worker.boundary.db), id, now, now + ttl, worker.boundary.db, e)
  {
    var r := worker.ClaimPublicDelivery(id, now, ttl);
    e := if r.Ok? && r.value.Some? then Event.Claimed(r.value.value.rowId) else Quiet;
  }

  method CallPublic(worker: SQLiteBoundaryWorkerStore, s: PublicStep) returns (e: Event)
    modifies worker.boundary
    ensures PublicStepTo(old(worker.boundary.db), s, worker.boundary.db, e)
  {
    match s
    case ClaimPublic(id, now, ttl) =>
      e := CallPublicClaim(worker, id, now, ttl);
    case FencePublic(c, now) =>
      var r := worker.FencePublicDelivery(c, now);
      e := if r.Ok? then Fenced(c.rowId) else Quiet;
    case CompletePublic(c, receipt, now) =>
      var r := worker.CompletePublicAcceptance(c, receipt, now);
      e := if r.Ok? then Accepted(c.rowId) else Quiet;
    case ReleasePublic(c) =>
      var r := worker.ReleasePublicDeliveryNotCalled(c);
      e := if r.Ok? then Released(c.rowId) else Quiet;
    case ReviewPublic(c) =>
      var r := worker.MarkPublicDeliveryManualReview(c);
      e := Quiet;
  }

  method CallRelayClaim(worker: SQLiteBoundaryWorkerStore, id: Id, now: Instant, ttl: int) returns (e: Event)
    modifies worker.boundary
    ensures if BadLease(now, ttl) then Unchanged(old(worker.boundary.db), worker.boundary.db, e)
            else RelayClaimTo(old(worker.boundary.db), id, now, now + ttl, worker.boundary.db, e)
  {
    var r := worker.ClaimCommandRelay(id, now, ttl);
    e := if r.Ok? && r.value.Some? then Event.RelayClaimed(r.value.value.relayId) else Quiet;
  }

  method CallRelay(worker: SQLiteBoundaryWorkerStore, s: RelayStep) returns (e: Event)
    modifies worker.boundary
    ensures RelayStepTo(old(worker.boundary.db), s, worker.boundary.db, e)
  {
    match s
    case ClaimRelay(id, now, ttl) =>
      e := CallRelayClaim(worker, id, now, ttl);
    case CompleteRelay(c, receipt, now) =>
      var r := worker.CompleteCommandRelay(c, receipt, now);
      e := if r.Ok? then RelayAcked(c.relayId) else Quiet;
    case ReleaseRelay(c) =>
      var r := worker.ReleaseCommandRelay(c);
      e := Quiet;
  }

  method CallJobClaim(worker: SQLiteBoundaryWorkerStore, id: Id, now: Instant, ttl: int) returns (e: Event)
    modifies worker.boundary
    ensures if BadLease(now, ttl) then Unchanged(old(worker.boundary.db), worker.boundary.db, e)
            else JobClaimTo(old(worker.boundary.db), id, now, now + ttl, worker.boundary.db, e)
  {
    var r := worker.ClaimInternalJob(id, now, ttl);
    e := if r.Ok? && r.value.Some? then Event.JobClaimed(r.value.value.jobId) else Quiet;
  }

  method CallJob(worker: SQLiteBoundaryWorkerStore, s: JobStep) returns (e: Event)
    modifies worker.boundary
    ensures JobStepTo(old(worker.boundary.db), s, worker.boundary.db, e)
  {
    match s
    case ClaimJob(id, now, ttl) =>
      e := CallJobClaim(worker, id, now, ttl);
    case CompleteJob(c, receipt, now) =>
      var r := worker.CompleteInternalJob(c, receipt, now);
      e := if r.Ok? then JobAcked(c.jobId) else Quiet;
    case ReleaseJob(c) =>
      var r := worker.ReleaseInternalJob(c);
      e := Quiet;
  }

  /** Performs a step by calling the store; the model of a step is what the call does. */
  method Perform(store: SQLiteBoundaryStore, worker: SQLiteBoundaryWorkerStore, s: Step) returns (e: Event)
    requires worker.boundary == store && VersionsUnique(store.db.events)
    requires s.OnTurn? && s.turn.CommitTurn? ==> WritesValid(s.turn.w)
    modifies store
    ensures StepTo(old(store.db), s, store.db, e)
  {
    match s
    case OnTurn(t) => e := CallTurn(store, t);
    case OnPublic(p) => e := CallPublic(worker, p);
    case OnRelay(r) => e := CallRelay(worker, r);
    case OnJob(j) => e := CallJob(worker, j);
  }
}
