/** Every step keeps every table's invariant, so every run does. */
module StepInvariant {
  import opened Tables
  import opened TurnWrites
  import opened TurnCommit
  import opened PublicQueue
  import opened QueueInvariant
  import opened LeaseQueue
  import opened BoundaryStore
  import opened WorkerStore
  import opened History
  import opened CommitInvariant
  import opened Steps

  ghost predicate SystemInv(db: Db) {
    QueueInv(db) && Linear(db.states, db.events) && RelaysOk(db.relays) && JobsOk(db.jobs)
  }

  // ----------------------------------------------------------- turn steps

  lemma InstallKeepsLink(db: Db, k: AuthKey, a: AuthRow)
    requires TwoTables(db) && CanInstall(db, k, a)
    ensures TwoTables(db.(authority := db.authority[k := a]))
  {
    var db' := db.(authority := db.authority[k := a]);
    forall p | p in db'.outbox ensures Linked(db', p) { assert Linked(db, p); }
    forall l | l in db'.authority ensures BackLinked(db', l) {
      if l in db.authority { assert BackLinked(db, l); }
    }
  }

  /** The queue invariant speaks of events, public rows and allocations only. */
  lemma QueueInvFrame(db: Db, db': Db)
    requires QueueInv(db) && TwoTables(db')
    requires db'.events == db.events && db'.outbox == db.outbox
    ensures QueueInv(db')
  {
    OrderKept(db, db');
  }

  lemma LinkFrame(db: Db, db': Db)
    requires TwoTables(db) && db'.outbox == db.outbox && db'.authority == db.authority
    ensures TwoTables(db')
  {
    forall p | p in db'.outbox ensures Linked(db', p) { assert Linked(db, p); }
    forall k | k in db'.authority ensures BackLinked(db', k) { assert BackLinked(db, k); }
  }

  lemma OtherTablesKeepInv(db: Db, db': Db)
    requires QueueInv(db)
    requires db'.events == db.events && db'.outbox == db.outbox && db'.authority == db.authority
    ensures QueueInv(db')
  {
    LinkFrame(db, db');
    QueueInvFrame(db, db');
  }

  lemma {:induction false} NewRelaysOk(t: Relays, w: TurnWrite, n: nat)
    requires RelaysOk(t) && n <= |w.relays|
    ensures RelaysOk(WithRelays(t, w, n))
  {
    if n > 0 { NewRelaysOk(t, w, n - 1); }
  }

  lemma {:induction false} NewJobsOk(t: Jobs, w: TurnWrite, n: nat)
    requires JobsOk(t) && n <= |w.jobs| && JobsInsertable(t, w, n)
    ensures JobsOk(WithJobs(t, w, n))
  {
    if n > 0 {
      NewJobsOk(t, w, n - 1);
      assert JobInsertable(WithJobs(t, w, n - 1), w, n - 1);
      OneMoreJob(WithJobs(t, w, n - 1), w, n - 1);
    }
  }

  lemma OneMoreJob(t: Jobs, w: TurnWrite, i: nat)
    requires JobsOk(t) && i < |w.jobs| && JobInsertable(t, w, i)
    ensures JobsOk(t[w.jobs[i].jobId := NewJob(w, w.jobs[i])])
  {
    var t' := t[w.jobs[i].jobId := NewJob(w, w.jobs[i])];
    forall p, q | p in t' && q in t' && SameTarget(t', p, q) ensures p == q {
      if p in t && q in t { assert SameTarget(t, p, q); }
    }
  }

  lemma CommitKeepsInv(db: Db, w: TurnWrite)
    requires SystemInv(db) && WritesValid(w) && Accepts(db, w)
    ensures SystemInv(Committed(db, w))
  {
    CommittedKeepsLinear(db, w);
    CommittedKeepsInv(db, w);
    NewRelaysOk(db.relays, w, |w.relays|);
    NewJobsOk(db.jobs, w, |w.jobs|);
  }

  lemma TurnStepKeepsInv(db: Db, s: TurnStep, db': Db, e: Event)
    requires SystemInv(db) && TurnStepTo(db, s, db', e)
    ensures SystemInv(db')
  {
    if db' != db {
      match s
      case InstallAllocation(k, a) =>
        InstallKeepsLink(db, k, a);
        QueueInvFrame(db, db');
      case CreateGenesis(lead) =>
        GenesisKeepsLinear(db, EmptyState(lead));
        OtherTablesKeepInv(db, db');
      case ImportGenesis(i) =>
        GenesisKeepsLinear(db, i.state);
        OtherTablesKeepInv(db, db');
      case AcquireFence(lead) =>
        AcquiredKeepsLinear(db, lead);
        OtherTablesKeepInv(db, db');
      case CommitTurn(w) => CommitKeepsInv(db, w);
    }
  }

  // --------------------------------------------------------- public steps

  lemma ClaimedKeepsQueue(db: Db, p: Id, worker: Id, now: Instant, expires: Instant)
    requires QueueInv(db) && Eligible(Recover(db, now), now, p)
    ensures QueueInv(Leasing(Recover(db, now), p, worker, now, expires))
  {
    RecoverKeepsInv(db, now);
    LeasingKeepsInv(Recover(db, now), p, worker, now, expires);
  }

  /** A claim recovers and leases, only recovers, or does nothing. */
  predicate ClaimEffect(db: Db, worker: Id, now: Instant, expires: Instant, db': Db, e: Event) {
    if e.Claimed?
    then Eligible(Recover(db, now), now, e.p) && db' == Leasing(Recover(db, now), e.p, worker, now, expires)
    else e == Quiet && (db' == db || db' == Recover(db, now))
  }

  lemma ClaimHasEffect(db: Db, worker: Id, now: Instant, ttl: int, db': Db, e: Event)
    requires PublicStepTo(db, ClaimPublic(worker, now, ttl), db', e)
    ensures ClaimEffect(db, worker, now, if BadLease(now, ttl) then now else now + ttl, db', e)
  {
  }

  lemma ClaimKeepsQueue(db: Db, worker: Id, now: Instant, expires: Instant, db': Db, e: Event)
    requires QueueInv(db) && ClaimEffect(db, worker, now, expires, db', e)
    ensures QueueInv(db')
  {
    if e.Claimed? {
      ClaimedKeepsQueue(db, e.p, worker, now, expires);
    } else if db' != db {
      RecoverKeepsInv(db, now);
    }
  }

  lemma FenceKeepsQueue(db: Db, c: PublicClaim, now: Instant, db': Db, e: Event)
    requires QueueInv(db) && PublicStepTo(db, FencePublic(c, now), db', e)
    ensures QueueInv(db')
  {
    if CanFence(db, c, now) { FencingKeepsInv(db, c, now); }
  }

  lemma CompleteKeepsQueue(db: Db, c: PublicClaim, receipt: AcceptanceReceipt, now: Instant, db': Db, e: Event)
    requires QueueInv(db) && PublicStepTo(db, CompletePublic(c, receipt, now), db', e)
    ensures QueueInv(db')
  {
    if CanComplete(db, c, receipt, now) { CompletingKeepsInv(db, c, receipt, now); }
  }

  lemma ReleaseKeepsQueue(db: Db, c: PublicClaim, db': Db, e: Event)
    requires QueueInv(db) && PublicStepTo(db, ReleasePublic(c), db', e)
    ensures QueueInv(db')
  {
    if CanRelease(db, c) { ReleasingKeepsInv(db, c); }
  }

  lemma ReviewKeepsQueue(db: Db, c: PublicClaim, db': Db, e: Event)
    requires QueueInv(db) && PublicStepTo(db, ReviewPublic(c), db', e)
    ensures QueueInv(db')
  {
    if CanReview(db, c) { ReviewingKeepsInv(db, c); }
  }

  lemma PublicStepKeepsQueue(db: Db, s: PublicStep, db': Db, e: Event)
    requires QueueInv(db) && PublicStepTo(db, s, db', e)
    ensures QueueInv(db')
  {
    match s
    case ClaimPublic(worker, now, ttl) =>
      ClaimHasEffect(db, worker, now, ttl, db', e);
      ClaimKeepsQueue(db, worker, now, if BadLease(now, ttl) then now else now + ttl, db', e);
    case FencePublic(c, now) => FenceKeepsQueue(db, c, now, db', e);
    case CompletePublic(c, receipt, now) => CompleteKeepsQueue(db, c, receipt, now, db', e);
    case ReleasePublic(c) => ReleaseKeepsQueue(db, c, db', e);
    case ReviewPublic(c) => ReviewKeepsQueue(db, c, db', e);
  }

  lemma PublicStepFrame(db: Db, s: PublicStep, db': Db, e: Event)
    requires PublicStepTo(db, s, db', e)
    ensures db' == db.(outbox := db'.outbox, authority := db'.authority)
  {
  }

  // -------------------------------------------------- relay and job steps

  lemma RelayStepFrame(db: Db, s: RelayStep, db': Db, e: Event)
    requires RelayStepTo(db, s, db', e)
    ensures db' == db.(relays := db'.relays)
  {
  }

  lemma ReclaimedRelaysOk(t: Relays, now: Instant)
    requires RelaysOk(t)
    ensures RelaysOk(ReclaimedRelays(t, now))
  {
    forall p | p in t ensures QueueOk(Reclaim(t[p].queue, now)) { assert QueueOk(t[p].queue); }
  }

  lemma OneRelayOk(t: Relays, p: Id, q: QueueState)
    requires RelaysOk(t) && p in t && QueueOk(q)
    ensures RelaysOk(t[p := t[p].(queue := q)])
  {
  }

  lemma RelayClaimKeepsOk(db: Db, worker: Id, now: Instant, ttl: int, db': Db, e: Event)
    requires RelaysOk(db.relays) && RelayStepTo(db, ClaimRelay(worker, now, ttl), db', e)
    ensures RelaysOk(db'.relays)
  {
    var t := ReclaimedRelays(db.relays, now);
    ReclaimedRelaysOk(db.relays, now);
    if e.RelayClaimed? { OneRelayOk(t, e.p, Lease(t[e.p].queue, worker, now, now + ttl)); }
  }

  lemma RelayStepKeepsOk(db: Db, s: RelayStep, db': Db, e: Event)
    requires RelaysOk(db.relays) && RelayStepTo(db, s, db', e)
    ensures RelaysOk(db'.relays)
  {
    if db' != db {
      match s
      case ClaimRelay(worker, now, ttl) => RelayClaimKeepsOk(db, worker, now, ttl, db', e);
      case CompleteRelay(c, receipt, now) =>
        OneRelayOk(db.relays, c.relayId, Acknowledge(db.relays[c.relayId].queue, receipt, now));
      case ReleaseRelay(c) =>
        OneRelayOk(db.relays, c.relayId, GiveUp(db.relays[c.relayId].queue));
    }
  }

  lemma JobStepFrame(db: Db, s: JobStep, db': Db, e: Event)
    requires JobStepTo(db, s, db', e)
    ensures db' == db.(jobs := db'.jobs)
  {
  }

  lemma ReclaimedJobsOk(t: Jobs, now: Instant)
    requires JobsOk(t)
    ensures JobsOk(ReclaimedJobs(t, now))
  {
    var t' := ReclaimedJobs(t, now);
    forall p | p in t ensures QueueOk(Reclaim(t[p].queue, now)) { assert QueueOk(t[p].queue); }
    forall p, q | p in t' && q in t' && SameTarget(t', p, q) ensures p == q { assert SameTarget(t, p, q); }
  }

  lemma OneJobOk(t: Jobs, p: Id, r: JobRow)
    requires JobsOk(t) && p in t && QueueOk(r.queue)
    requires r.target == t[p].target || !TargetTaken(t, p, r.target)
    ensures JobsOk(t[p := r])
  {
    var t' := t[p := r];
    forall q, o | q in t' && o in t' && SameTarget(t', q, o) ensures q == o {
      if r.target == t[p].target || (q != p && o != p) { assert SameTarget(t, q, o); }
    }
  }

  /** A claim reclaims and leases, only reclaims, or does nothing. */
  predicate JobClaimEffect(db: Db, worker: Id, now: Instant, expires: Instant, db': Db, e: Event) {
    var t := ReclaimedJobs(db.jobs, now);
    if e.JobClaimed?
    then HandoffPending(t, e.p) && JobRefusal(t, e.p).None? && db'.jobs == LeasedJobs(t, e.p, worker, now, expires)
    else db'.jobs == db.jobs || db'.jobs == t
  }

  lemma JobClaimHasEffect(db: Db, worker: Id, now: Instant, ttl: int, db': Db, e: Event)
    requires JobStepTo(db, ClaimJob(worker, now, ttl), db', e)
    ensures JobClaimEffect(db, worker, now, if BadLease(now, ttl) then now else now + ttl, db', e)
  {
  }

  lemma JobClaimKeepsOk(db: Db, worker: Id, now: Instant, expires: Instant, db': Db, e: Event)
    requires JobsOk(db.jobs) && JobClaimEffect(db, worker, now, expires, db', e)
    ensures JobsOk(db'.jobs)
  {
    ReclaimedJobsOk(db.jobs, now);
    if e.JobClaimed? { LeasedJobsOk(ReclaimedJobs(db.jobs, now), e.p, worker, now, expires); }
  }

  lemma LeasedJobsOk(t: Jobs, p: Id, worker: Id, now: Instant, expires: Instant)
    requires JobsOk(t) && HandoffPending(t, p) && JobRefusal(t, p).None?
    ensures JobsOk(LeasedJobs(t, p, worker, now, expires))
  {
    OneJobOk(t, p, LeasedJobs(t, p, worker, now, expires)[p]);
  }

  lemma JobSettledKeepsOk(db: Db, s: JobStep, db': Db, e: Event)
    requires JobsOk(db.jobs) && JobStepTo(db, s, db', e) && !s.ClaimJob?
    ensures JobsOk(db'.jobs)
  {
    if db'.jobs != db.jobs {
      var p := s.job.jobId;
      OneJobOk(db.jobs, p, db'.jobs[p]);
    }
  }

  lemma JobStepKeepsOk(db: Db, s: JobStep, db': Db, e: Event)
    requires JobsOk(db.jobs) && JobStepTo(db, s, db', e)
    ensures JobsOk(db'.jobs)
  {
    if s.ClaimJob? {
      JobClaimHasEffect(db, s.worker, s.now, s.ttl, db', e);
      JobClaimKeepsOk(db, s.worker, s.now, if BadLease(s.now, s.ttl) then s.now else s.now + s.ttl, db', e);
    } else {
      JobSettledKeepsOk(db, s, db', e);
    }
  }

  // -------------------------------------------------------------- any step

  /** No step of any coordinator or worker breaks any table. */
  lemma StepKeepsInv(db: Db, s: Step, db': Db, e: Event)
    requires SystemInv(db) && StepTo(db, s, db', e)
    ensures SystemInv(db')
  {
    match s
    case OnTurn(t) => TurnStepKeepsInv(db, t, db', e);
    case OnPublic(p) =>
      PublicStepKeepsQueue(db, p, db', e);
      PublicStepFrame(db, p, db', e);
    case OnRelay(r) =>
      RelayStepKeepsOk(db, r, db', e);
      RelayStepFrame(db, r, db', e);
      OtherTablesKeepInv(db, db');
    case OnJob(j) =>
      JobStepKeepsOk(db, j, db', e);
      JobStepFrame(db, j, db', e);
      OtherTablesKeepInv(db, db');
  }
}
