/** The lease protocol shared by command relays and internal jobs, as guarded
    updates on a row's queue columns and on the two tables. */
module LeaseQueue {
  import opened Options
  import opened Tables
  import Text

  // ------------------------------------------------------ one row's columns

  const MAX_FAILURES: nat := 3

  function Idle(q: QueueState, status: QueueStatus): QueueState {
    q.(status := status, owner := None, acquiredAt := None, expiresAt := None)
  }

  function Reclaim(q: QueueState, now: Instant): QueueState {
    if q.status == QLeased && q.expiresAt.Some? && q.expiresAt.value <= now then Idle(q, QPending) else q
  }

  function Lease(q: QueueState, worker: Id, now: Instant, expires: Instant): QueueState {
    q.(status := QLeased, owner := Some(worker), fencingToken := q.fencingToken + 1,
       claimCount := q.claimCount + 1, acquiredAt := Some(now), expiresAt := Some(expires))
  }

  /** The compare-and-swap of complete and release. */
  predicate HeldBy(q: QueueState, worker: Id, token: nat) {
    q.status == QLeased && q.owner == Some(worker) && q.fencingToken == token
  }

  function Acknowledge(q: QueueState, receipt: TargetReceipt, now: Instant): QueueState {
    Idle(q, QAcked).(targetReceipt := Some(receipt), ackedAt := Some(now))
  }

  function GiveUp(q: QueueState): QueueState {
    Idle(q, if q.failures + 1 >= MAX_FAILURES then QManualReview else QPending).(failures := q.failures + 1)
  }

  /** The CHECK constraints, and what the operations add to them. */
  predicate QueueOk(q: QueueState) {
    && QueueCheck(q)
    && (q.status == QManualReview <==> q.failures == MAX_FAILURES)
    && q.status != QCancelled
  }

  lemma QueueStepsKeepOk(q: QueueState, worker: Id, now: Instant, expires: Instant, receipt: TargetReceipt)
    requires QueueOk(q)
    ensures QueueOk(Reclaim(q, now))
    ensures q.status == QPending ==> QueueOk(Lease(q, worker, now, expires))
    ensures q.status == QLeased ==> QueueOk(Acknowledge(q, receipt, now)) && QueueOk(GiveUp(q))
  {
  }

  // -------------------------------------------------------- command relays

  datatype RelayClaim = RelayClaim(
    relayId: Id, commandId: Id, bundle: BundleJson, bundleHash: Digest, sourceReceipt: Digest,
    operationId: Digest, worker: Id, token: nat, expiresAt: Instant)

  type Relays = map<Id, RelayRow>

  function ReclaimedRelays(t: Relays, now: Instant): Relays {
    map p | p in t :: t[p].(queue := Reclaim(t[p].queue, now))
  }

  predicate RelayPending(t: Relays, p: Id) {
    p in t && t[p].queue.status == QPending
  }

  /** ORDER BY relay_id LIMIT 1 over the pending rows. */
  predicate FirstRelay(t: Relays, p: Id) {
    RelayPending(t, p) && forall q :: q in t && RelayPending(t, q) ==> !Text.Less(q.text, p.text)
  }

  /** The digest a reservation bundle's decoder recomputes from its preimage. */
  function ReservationBundleHash(b: BundleJson): Result<Digest> {
    match b
    case ReservationJson(body, claimed) =>
      if claimed == BundlePreimageDigest("reservation", body) then Ok(claimed) else Err(ValueError)
    case _ => Err(ValueError)
  }

  function HandoffBundleHash(b: BundleJson): Result<Digest> {
    match b
    case HandoffJson(body, claimed) =>
      if claimed == BundlePreimageDigest("handoff", body) then Ok(claimed) else Err(ValueError)
    case _ => Err(ValueError)
  }

  function HashRefusal(decoded: Result<Digest>, stored: Digest): Option<Error> {
    if decoded.Err? then Some(decoded.error)
    else if decoded.value != stored then Some(DataCorruption)
    else None
  }

  /** Why the first pending relay cannot be claimed, if it cannot. */
  function RelayRefusal(t: Relays, p: Id): Option<Error>
    requires p in t
  {
    HashRefusal(ReservationBundleHash(t[p].content.bundle), t[p].content.bundleHash)
  }

  function LeasedRelays(t: Relays, p: Id, worker: Id, now: Instant, expires: Instant): Relays
    requires p in t
  {
    t[p := t[p].(queue := Lease(t[p].queue, worker, now, expires))]
  }

  function RelayClaimOf(p: Id, r: RelayRow, worker: Id, expires: Instant): RelayClaim {
    var c := r.content;
    RelayClaim(p, c.commandId, c.bundle, c.bundleHash, c.receiptHash,
               OperationDigest(true, c.bundleHash, c.receiptHash), worker, r.queue.fencingToken + 1, expires)
  }

  predicate HoldsRelay(t: Relays, c: RelayClaim) {
    c.relayId in t && HeldBy(t[c.relayId].queue, c.worker, c.token)
  }

  predicate RelayReceiptMatches(c: RelayClaim, r: TargetReceipt) {
    r.operationId == c.operationId && r.handoff && r.artifactHash == c.bundleHash
    && r.sourceReceiptHash == c.sourceReceipt
  }

  function AckedRelays(t: Relays, c: RelayClaim, r: TargetReceipt, now: Instant): Relays
    requires c.relayId in t
  {
    t[c.relayId := t[c.relayId].(queue := Acknowledge(t[c.relayId].queue, r, now))]
  }

  function GivenUpRelays(t: Relays, c: RelayClaim): Relays
    requires c.relayId in t
  {
    t[c.relayId := t[c.relayId].(queue := GiveUp(t[c.relayId].queue))]
  }

  // --------------------------------------------------------- internal jobs

  datatype JobClaim = JobClaim(
    jobId: Id, bundle: BundleJson, artifactHash: Digest, sourceReceipt: Digest,
    operationId: Digest, worker: Id, token: nat, expiresAt: Instant)

  type Jobs = map<Id, JobRow>

  function ReclaimedJobs(t: Jobs, now: Instant): Jobs {
    map p | p in t :: t[p].(queue := Reclaim(t[p].queue, now))
  }

  predicate HandoffPending(t: Jobs, p: Id) {
    p in t && t[p].queue.status == QPending && t[p].content.kind == HandoffRelay
  }

  predicate FirstHandoff(t: Jobs, p: Id) {
    HandoffPending(t, p) && forall q :: q in t && HandoffPending(t, q) ==> !Text.Less(q.text, p.text)
  }

  function HandoffOperation(r: JobRow): Digest {
    OperationDigest(true, r.content.artifactHash, r.content.receiptHash)
  }

  /** Another row already has this target, so the UNIQUE constraint refuses it. */
  predicate TargetTaken(t: Jobs, p: Id, target: Digest) {
    exists q :: q in t && q != p && t[q].target == target
  }

  function LeasedJobs(t: Jobs, p: Id, worker: Id, now: Instant, expires: Instant): Jobs
    requires p in t
  {
    t[p := t[p].(queue := Lease(t[p].queue, worker, now, expires), target := HandoffOperation(t[p]))]
  }

  function JobClaimOf(p: Id, r: JobRow, worker: Id, expires: Instant): JobClaim {
    JobClaim(p, r.content.bundle, r.content.artifactHash, r.content.receiptHash, HandoffOperation(r),
             worker, r.queue.fencingToken + 1, expires)
  }

  /** Why the first pending handoff cannot be claimed, if it cannot. */
  function JobRefusal(t: Jobs, p: Id): Option<Error>
    requires p in t
  {
    var refused := HashRefusal(HandoffBundleHash(t[p].content.bundle), t[p].content.artifactHash);
    if refused.Some? then refused
    else if TargetTaken(t, p, HandoffOperation(t[p])) then Some(IntegrityError)
    else None
  }

  predicate HoldsJob(t: Jobs, c: JobClaim) {
    c.jobId in t && HeldBy(t[c.jobId].queue, c.worker, c.token)
  }

  predicate JobReceiptMatches(c: JobClaim, r: TargetReceipt) {
    r.operationId == c.operationId && r.handoff && r.artifactHash == c.artifactHash
    && r.sourceReceiptHash == c.sourceReceipt
  }

  function AckedJobs(t: Jobs, c: JobClaim, r: TargetReceipt, now: Instant): Jobs
    requires c.jobId in t
  {
    t[c.jobId := t[c.jobId].(queue := Acknowledge(t[c.jobId].queue, r, now))]
  }

  function GivenUpJobs(t: Jobs, c: JobClaim): Jobs
    requires c.jobId in t
  {
    t[c.jobId := t[c.jobId].(queue := GiveUp(t[c.jobId].queue))]
  }

  // ------------------------------------------------------------- invariant

  ghost predicate RelaysOk(t: Relays) {
    forall p :: p in t ==> QueueOk(t[p].queue)
  }

  predicate SameTarget(t: Jobs, p: Id, q: Id)
    requires p in t && q in t
  {
    t[p].target == t[q].target
  }

  ghost predicate JobsOk(t: Jobs) {
    && (forall p :: p in t ==> QueueOk(t[p].queue))
    && (forall p, q :: p in t && q in t && SameTarget(t, p, q) ==> p == q)
  }

  /** Taking the first of several ids by their text. */
  lemma {:induction false} SomeIdIsFirst(ids: set<Id>) returns (p: Id)
    requires ids != {}
    ensures p in ids && forall q :: q in ids ==> !Text.Less(q.text, p.text)
  {
    var x :| x in ids;
    Text.LessIsIrreflexive(x.text);
    if ids == {x} {
      p := x;
    } else {
      var m := SomeIdIsFirst(ids - {x});
      p := if Text.Less(x.text, m.text) then x else m;
      forall q | q in ids ensures !Text.Less(q.text, p.text) {
        if Text.Less(q.text, p.text) && p == x && q != x { Text.LessIsTransitive(q.text, x.text, m.text); }
      }
    }
  }
}
