/** Claims in whole runs: what a claim hands out is what some commit wrote, and
    whoever settles a row holds its last claim. */
module ClaimRuns {
  import opened Options
  import opened Tables
  import opened Ordering
  import opened TurnWrites
  import opened TurnCommit
  import opened PublicQueue
  import opened QueueInvariant
  import opened LeaseQueue
  import opened Steps
  import opened RowSteps
  import opened Replay
  import opened Runs
  import opened ReachableScan
  import opened CommittedRows
  import opened ClaimLife

  // ------------------------------------------------- every row was committed

  function RowIds(w: TurnWrite): seq<Id> {
    seq(|w.rows|, i requires 0 <= i < |w.rows| => w.rows[i].rowId)
  }

  lemma RowOfWrite(t: map<Id, PublicRow>, w: TurnWrite, p: Id) returns (k: nat)
    requires RowsStored(t, w) && ReceiptBinds(w) && ReceiptValid(w.receipt) && p in t && t[p].turn == w.Key()
    ensures k < |w.rows| && w.rows[k].rowId == p
  {
    assert w.receipt.chunks == ChunkRows(w.rows);
    forall i, j | 0 <= i < j < |RowIds(w)| ensures RowIds(w)[i] != RowIds(w)[j] {
      assert w.receipt.chunks[i].0 == w.rows[i].rowId && w.receipt.chunks[j].0 == w.rows[j].rowId;
    }
    CoversByCount(RowsOf(t, w.Key()), RowIds(w));
    assert p in RowsOf(t, w.Key());
    k :| k < |RowIds(w)| && RowIds(w)[k] == p;
  }

  /** Every public row was written by a commit of the run. */
  lemma RowHasWrite(ws: seq<World>, steps: seq<Step>, j: nat, p: Id) returns (i: nat, w: TurnWrite, k: nat)
    requires Run(ws, steps) && j < |ws| && p in ws[j].db.outbox
    ensures i < j && Happens(ws, i, Advanced(w)) && k < |w.rows| && w.rows[k].rowId == p
  {
    RunInv(ws, steps, j);
    i, w := EventHasCommit(ws, steps, j, ws[j].db.outbox[p].turn);
    CommittedTurnStays(ws, steps, i, j, w);
    k := RowOfWrite(ws[j].db.outbox, w, p);
  }

  /** A claim carries the arguments of the i-th public write of a call. */
  predicate CarriesWrite(c: PublicClaim, w: TurnWrite, k: nat) {
    && k < |w.rows| && c.rowId == w.rows[k].rowId
    && c.turn == TurnKey(w.commit.state.leadKey, w.receipt.turn) && c.receiptHash == ReceiptDigest(w.receipt)
    && c.chunk == w.rows[k].chunk && c.idempotencyKey == w.rows[k].idempotencyKey && c.channelId == w.rows[k].channelId
    && c.key == w.rows[k].key && c.targetBindingHash == w.rows[k].terms.targetBindingHash && c.deadline == w.rows[k].deadline
  }

  /** In every run, whatever a worker is told to send, where and under which key, is
      what an accepted commit was called with. */
  lemma ClaimHandsOutWrite(ws: seq<World>, steps: seq<Step>, j: nat, worker: Id, now: Instant, ttl: int, c: PublicClaim)
    returns (i: nat, w: TurnWrite, k: nat)
    requires Run(ws, steps) && j < |steps| && ReturnsPublic(ws[j].db, worker, now, ttl, ws[j + 1].db, c)
    ensures i < j && Happens(ws, i, Advanced(w)) && CarriesWrite(c, w, k)
  {
    ReturnedClaim(ws[j].db, worker, now, ttl, ws[j + 1].db, c);
    i, w, k := RowHasWrite(ws, steps, j, c.rowId);
    CommittedColumnsStay(ws, steps, i, j, w);
    assert ChunkKept(ws[j].db, w, k);
  }

  // ------------------------------------------------------ who settles a row

  /** The last claim of a row before step `j`. */
  ghost predicate IsLastClaim(ws: seq<World>, i: nat, j: nat, e: Event) {
    i < j && Happens(ws, i, e) && forall k: nat :: i < k < j ==> !Happens(ws, k, e)
  }

  lemma {:induction false} LastClaim(ws: seq<World>, steps: seq<Step>, j: nat, p: Id) returns (i: nat)
    requires Run(ws, steps) && j < |ws| && p in ws[j].db.outbox && InFlight(ws[j].db.outbox[p].status)
    ensures IsLastClaim(ws, i, j, Event.Claimed(p))
  {
    assert j > 0;
    var e := RunMovesRow(ws, steps, j - 1, p);
    if e == Event.Claimed(p) {
      i := j - 1;
    } else {
      i := LastClaim(ws, steps, j - 1, p);
      assert !Happens(ws, j - 1, Event.Claimed(p));
    }
  }

  /** Whoever can fence, complete, release or review a row is the worker of its last
      claim and shows that claim's token; the row's lease is the one that claim took. */
  lemma HolderMadeLastClaim(ws: seq<World>, steps: seq<Step>, j: nat, c: PublicClaim)
    returns (i: nat, now: Instant, ttl: int)
    requires Run(ws, steps) && j < |ws| && Holds(ws[j].db, c, {Leased, DispatchFenced})
    ensures IsLastClaim(ws, i, j, Event.Claimed(c.rowId)) && steps[i] == OnPublic(ClaimPublic(c.workerId, now, ttl))
    ensures c.fencingToken == Times(ws[j].log, Event.Claimed(c.rowId))
    ensures ws[j].db.outbox[c.rowId].acquiredAt == Some(now) && ws[j].db.outbox[c.rowId].expiresAt == Some(now + ttl)
  {
    i := LastClaim(ws, steps, j, c.rowId);
    RunTakesStep(ws, steps, i, Event.Claimed(c.rowId));
    now, ttl := steps[i].public.now, steps[i].public.ttl;
    LeaseIsTheLastClaims(ws, steps, i, j, c.rowId, steps[i].public.worker, now, ttl);
    DispatchAccounting(ws, steps, j, c.rowId);
    RunInv(ws, steps, j);
    assert Linked(ws[j].db, c.rowId);
  }

  /** The row is leased as before. */
  predicate SameLease(q: QueueState, q': QueueState) {
    && q.status == q'.status == QLeased && q'.owner == q.owner && q'.acquiredAt == q.acquiredAt && q'.expiresAt == q.expiresAt
  }

  // ------------------------------------------------------------ relays

  /** The relay's lease is this claim's, as long as it is leased. */
  predicate RelayUnderLease(q: Option<QueueState>, worker: Id, token: nat, now: Instant, expires: Instant) {
    && q.Some? && q.value.fencingToken == token
    && (q.value.status == QLeased ==>
          q.value.owner == Some(worker) && q.value.acquiredAt == Some(now) && q.value.expiresAt == Some(expires))
  }

  lemma RelayClaimTakesLease(db: Db, s: RelayStep, db': Db, p: Id)
    requires RelayStepTo(db, s, db', RelayClaimed(p))
    ensures s.ClaimRelay? && s.now + s.ttl > s.now && p in db'.relays
    ensures RelayUnderLease(RelayAt(db', p), s.worker, db'.relays[p].queue.fencingToken, s.now, s.now + s.ttl)
  {
  }

  lemma OnlyRelaysClaimRelays(db: Db, s: Step, db': Db, p: Id)
    requires StepTo(db, s, db', RelayClaimed(p))
    ensures s.OnRelay? && RelayStepTo(db, s.relay, db', RelayClaimed(p))
  {
    match s
    case OnTurn(t) => TurnStepClaimsNothing(db, t, db', RelayClaimed(p));
    case OnPublic(a) => PublicStepKeepsQueues(db, a, db', RelayClaimed(p));
    case OnJob(j) => JobStepKeepsRelays(db, j, db', RelayClaimed(p));
    case _ =>
  }

  /** The lease the relay is under is the one this step took. */
  predicate RelayLeaseOf(q: QueueState, s: Step) {
    && s.OnRelay? && s.relay.ClaimRelay? && s.relay.now + s.relay.ttl > s.relay.now && q.owner == Some(s.relay.worker)
    && q.acquiredAt == Some(s.relay.now) && q.expiresAt == Some(s.relay.now + s.relay.ttl)
  }

  /** A leased relay was claimed in the last step, or was under the same lease before it. */
  lemma LeasedRelayBefore(ws: seq<World>, steps: seq<Step>, j: nat, p: Id) returns (claimed: bool)
    requires Run(ws, steps) && j < |steps| && p in ws[j + 1].db.relays && ws[j + 1].db.relays[p].queue.status == QLeased
    ensures claimed == Happens(ws, j, RelayClaimed(p))
    ensures claimed ==> RelayLeaseOf(ws[j + 1].db.relays[p].queue, steps[j])
    ensures !claimed ==> p in ws[j].db.relays && SameLease(ws[j].db.relays[p].queue, ws[j + 1].db.relays[p].queue)
  {
    var e := RunLogs(ws, steps, j);
    claimed := e == RelayClaimed(p);
    StepMovesRelay(ws[j].db, steps[j], ws[j + 1].db, e, p);
    if claimed {
      OnlyRelaysClaimRelays(ws[j].db, steps[j], ws[j + 1].db, p);
      RelayClaimTakesLease(ws[j].db, steps[j].relay, ws[j + 1].db, p);
    }
  }

  lemma {:induction false} LeasedRelayHasClaim(ws: seq<World>, steps: seq<Step>, j: nat, p: Id) returns (i: nat)
    requires Run(ws, steps) && j < |ws| && p in ws[j].db.relays && ws[j].db.relays[p].queue.status == QLeased
    ensures IsLastClaim(ws, i, j, RelayClaimed(p)) && i < |steps| && RelayLeaseOf(ws[j].db.relays[p].queue, steps[i])
  {
    assert j > 0;
    var claimed := LeasedRelayBefore(ws, steps, j - 1, p);
    if claimed { i := j - 1; } else { i := LeasedRelayHasClaim(ws, steps, j - 1, p); }
  }

  /** Whoever can complete or release a relay is the worker of its last claim and shows
      that claim's token. */
  lemma RelayHolderMadeLastClaim(ws: seq<World>, steps: seq<Step>, j: nat, c: RelayClaim) returns (i: nat)
    requires Run(ws, steps) && j < |ws| && HoldsRelay(ws[j].db.relays, c)
    ensures IsLastClaim(ws, i, j, RelayClaimed(c.relayId)) && i < |steps| && steps[i].OnRelay? && steps[i].relay.ClaimRelay?
    ensures steps[i].relay.worker == c.worker && c.token == Times(ws[j].log, RelayClaimed(c.relayId))
  {
    i := LeasedRelayHasClaim(ws, steps, j, c.relayId);
    RelayAccounting(ws, steps, j, c.relayId);
  }

  function RelayIds(w: TurnWrite): seq<Id> {
    seq(|w.relays|, i requires 0 <= i < |w.relays| => w.relays[i].relayId)
  }

  lemma RelayOfWrite(t: Relays, w: TurnWrite, p: Id) returns (k: nat)
    requires RelaysStored(t, w) && ReceiptBinds(w) && ReceiptValid(w.receipt) && p in t && t[p].turn == w.Key()
    ensures k < |w.relays| && w.relays[k].relayId == p
  {
    assert RelayIds(w) == Ids(w.receipt.relayRows) by {
      assert w.receipt.relayRows == RelayRows(w.relays);
      assert |Ids(w.receipt.relayRows)| == |RelayIds(w)|;
      forall i | 0 <= i < |w.relays| ensures Ids(w.receipt.relayRows)[i] == RelayIds(w)[i] {}
    }
    CoversByCount(RelaysOf(t, w.Key()), RelayIds(w));
    assert p in RelaysOf(t, w.Key());
    k :| k < |RelayIds(w)| && RelayIds(w)[k] == p;
  }

  lemma RelayHasWrite(ws: seq<World>, steps: seq<Step>, j: nat, p: Id) returns (i: nat, w: TurnWrite, k: nat)
    requires Run(ws, steps) && j < |ws| && p in ws[j].db.relays
    ensures i < j && Happens(ws, i, Advanced(w)) && k < |w.relays| && w.relays[k].relayId == p
  {
    RunGrows(ws, steps, 0, j);
    i, w := EventHasCommit(ws, steps, j, ws[j].db.relays[p].turn);
    CommittedTurnStays(ws, steps, i, j, w);
    k := RelayOfWrite(ws[j].db.relays, w, p);
  }

  /** In every run, the relay a worker is handed is one some commit was called with. */
  lemma RelayClaimHandsOutWrite(ws: seq<World>, steps: seq<Step>, j: nat, worker: Id, now: Instant, ttl: int, c: RelayClaim)
    returns (i: nat, w: TurnWrite, k: nat)
    requires Run(ws, steps) && j < |steps| && ReturnsRelay(ws[j].db, worker, now, ttl, ws[j + 1].db, c)
    ensures i < j && Happens(ws, i, Advanced(w)) && k < |w.relays|
    ensures c.relayId == w.relays[k].relayId && c.commandId == w.relays[k].commandId && c.bundle == w.relays[k].bundle
    ensures c.bundleHash == w.relays[k].bundleHash && c.sourceReceipt == ReceiptDigest(w.receipt)
    ensures c.operationId == OperationDigest(true, w.relays[k].bundleHash, ReceiptDigest(w.receipt))
  {
    RunInv(ws, steps, j);
    ReturnedRelay(ws[j].db, worker, now, ttl, ws[j + 1].db, c);
    i, w, k := RelayHasWrite(ws, steps, j, c.relayId);
    CommittedColumnsStay(ws, steps, i, j, w);
    assert RelayKept(ws[j].db, w, k);
  }

  // ------------------------------------------------------------ jobs

  /** The job's lease is this claim's, as long as it is leased. */
  predicate JobUnderLease(q: Option<QueueState>, worker: Id, token: nat, now: Instant, expires: Instant) {
    && q.Some? && q.value.fencingToken == token
    && (q.value.status == QLeased ==>
          q.value.owner == Some(worker) && q.value.acquiredAt == Some(now) && q.value.expiresAt == Some(expires))
  }

  lemma JobClaimTakesLease(db: Db, s: JobStep, db': Db, p: Id)
    requires JobStepTo(db, s, db', JobClaimed(p))
    ensures s.ClaimJob? && s.now + s.ttl > s.now && p in db'.jobs
    ensures JobUnderLease(JobAt(db', p), s.worker, db'.jobs[p].queue.fencingToken, s.now, s.now + s.ttl)
  {
  }

  lemma OnlyJobsClaimJobs(db: Db, s: Step, db': Db, p: Id)
    requires StepTo(db, s, db', JobClaimed(p))
    ensures s.OnJob? && JobStepTo(db, s.job, db', JobClaimed(p))
  {
    match s
    case OnTurn(t) => TurnStepClaimsNothing(db, t, db', JobClaimed(p));
    case OnPublic(a) => PublicStepKeepsQueues(db, a, db', JobClaimed(p));
    case OnRelay(r) => RelayStepKeepsJobs(db, r, db', JobClaimed(p));
    case _ =>
  }

  /** The lease the job is under is the one this step took. */
  predicate JobLeaseOf(q: QueueState, s: Step) {
    && s.OnJob? && s.job.ClaimJob? && s.job.now + s.job.ttl > s.job.now && q.owner == Some(s.job.worker)
    && q.acquiredAt == Some(s.job.now) && q.expiresAt == Some(s.job.now + s.job.ttl)
  }

  /** A leased job was claimed in the last step, or was under the same lease before it. */
  lemma LeasedJobBefore(ws: seq<World>, steps: seq<Step>, j: nat, p: Id) returns (claimed: bool)
    requires Run(ws, steps) && j < |steps| && p in ws[j + 1].db.jobs && ws[j + 1].db.jobs[p].queue.status == QLeased
    ensures claimed == Happens(ws, j, JobClaimed(p))
    ensures claimed ==> JobLeaseOf(ws[j + 1].db.jobs[p].queue, steps[j])
    ensures !claimed ==> p in ws[j].db.jobs && SameLease(ws[j].db.jobs[p].queue, ws[j + 1].db.jobs[p].queue)
  {
    var e := RunLogs(ws, steps, j);
    claimed := e == JobClaimed(p);
    StepMovesJob(ws[j].db, steps[j], ws[j + 1].db, e, p);
    if claimed {
      OnlyJobsClaimJobs(ws[j].db, steps[j], ws[j + 1].db, p);
      JobClaimTakesLease(ws[j].db, steps[j].job, ws[j + 1].db, p);
    }
  }

  lemma {:induction false} LeasedJobHasClaim(ws: seq<World>, steps: seq<Step>, j: nat, p: Id) returns (i: nat)
    requires Run(ws, steps) && j < |ws| && p in ws[j].db.jobs && ws[j].db.jobs[p].queue.status == QLeased
    ensures IsLastClaim(ws, i, j, JobClaimed(p)) && i < |steps| && JobLeaseOf(ws[j].db.jobs[p].queue, steps[i])
  {
    assert j > 0;
    var claimed := LeasedJobBefore(ws, steps, j - 1, p);
    if claimed { i := j - 1; } else { i := LeasedJobHasClaim(ws, steps, j - 1, p); }
  }

  /** Whoever can complete or release a job is the worker of its last claim and shows
      that claim's token. */
  lemma JobHolderMadeLastClaim(ws: seq<World>, steps: seq<Step>, j: nat, c: JobClaim) returns (i: nat)
    requires Run(ws, steps) && j < |ws| && HoldsJob(ws[j].db.jobs, c)
    ensures IsLastClaim(ws, i, j, JobClaimed(c.jobId)) && i < |steps| && steps[i].OnJob? && steps[i].job.ClaimJob?
    ensures steps[i].job.worker == c.worker && c.token == Times(ws[j].log, JobClaimed(c.jobId))
  {
    i := LeasedJobHasClaim(ws, steps, j, c.jobId);
    JobAccounting(ws, steps, j, c.jobId);
  }

  function JobIds(w: TurnWrite): seq<Id> {
    seq(|w.jobs|, i requires 0 <= i < |w.jobs| => w.jobs[i].jobId)
  }

  lemma JobOfWrite(t: Jobs, w: TurnWrite, p: Id) returns (k: nat)
    requires JobsStored(t, w) && ReceiptBinds(w) && ReceiptValid(w.receipt) && p in t && t[p].turn == w.Key()
    ensures k < |w.jobs| && w.jobs[k].jobId == p
  {
    assert JobIds(w) == Ids(w.receipt.jobRows) by {
      assert w.receipt.jobRows == JobRows(w.jobs);
      assert |Ids(w.receipt.jobRows)| == |JobIds(w)|;
      forall i | 0 <= i < |w.jobs| ensures Ids(w.receipt.jobRows)[i] == JobIds(w)[i] {}
    }
    CoversByCount(JobsOf(t, w.Key()), JobIds(w));
    assert p in JobsOf(t, w.Key());
    k :| k < |JobIds(w)| && JobIds(w)[k] == p;
  }

  lemma JobHasWrite(ws: seq<World>, steps: seq<Step>, j: nat, p: Id) returns (i: nat, w: TurnWrite, k: nat)
    requires Run(ws, steps) && j < |ws| && p in ws[j].db.jobs
    ensures i < j && Happens(ws, i, Advanced(w)) && k < |w.jobs| && w.jobs[k].jobId == p
  {
    RunGrows(ws, steps, 0, j);
    i, w := EventHasCommit(ws, steps, j, ws[j].db.jobs[p].turn);
    CommittedTurnStays(ws, steps, i, j, w);
    k := JobOfWrite(ws[j].db.jobs, w, p);
  }

  /** In every run, the job a worker is handed is one some commit was called with. */
  lemma JobClaimHandsOutWrite(ws: seq<World>, steps: seq<Step>, j: nat, worker: Id, now: Instant, ttl: int, c: JobClaim)
    returns (i: nat, w: TurnWrite, k: nat)
    requires Run(ws, steps) && j < |steps| && ReturnsJob(ws[j].db, worker, now, ttl, ws[j + 1].db, c)
    ensures i < j && Happens(ws, i, Advanced(w)) && k < |w.jobs|
    ensures c.jobId == w.jobs[k].jobId && c.bundle == w.jobs[k].bundle && c.artifactHash == w.jobs[k].artifactHash
    ensures c.sourceReceipt == ReceiptDigest(w.receipt)
    ensures c.operationId == OperationDigest(true, w.jobs[k].artifactHash, ReceiptDigest(w.receipt))
  {
    RunInv(ws, steps, j);
    ReturnedJob(ws[j].db, worker, now, ttl, ws[j + 1].db, c);
    i, w, k := JobHasWrite(ws, steps, j, c.jobId);
    CommittedColumnsStay(ws, steps, i, j, w);
    assert JobKept(ws[j].db, w, k);
  }
}
