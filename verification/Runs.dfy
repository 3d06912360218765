/** Whole runs: any number of coordinators and workers taking steps in any
    order, with the log of what each step did. */
module Runs {
  import opened Options
  import opened Tables
  import opened TurnWrites
  import opened TurnCommit
  import opened PublicQueue
  import opened QueueInvariant
  import opened LeaseQueue
  import opened BoundaryStore
  import opened History
  import opened CommitInvariant
  import opened Steps
  import opened StepInvariant
  import opened RowSteps

  datatype World = World(db: Db, log: seq<Event>)

  predicate Next(w: World, s: Step, w': World) {
    |w'.log| == |w.log| + 1 && w'.log == w.log + [w'.log[|w.log|]] && StepTo(w.db, s, w'.db, w'.log[|w.log|])
  }

  ghost predicate Run(ws: seq<World>, steps: seq<Step>) {
    && |ws| == |steps| + 1 && ws[0] == World(EMPTY_DB, [])
    && forall i: nat {:trigger steps[i]} :: i < |steps| ==> Next(ws[i], steps[i], ws[i + 1])
  }

  /** The event of step `i`. */
  ghost predicate Happens(ws: seq<World>, i: nat, e: Event) {
    i + 1 < |ws| && |ws[i + 1].log| == i + 1 && ws[i + 1].log[i] == e
  }

  function Times(log: seq<Event>, e: Event): nat {
    multiset(log)[e]
  }

  lemma TimesAfter(w: World, w': World, e: Event)
    requires |w'.log| == |w.log| + 1 && w'.log == w.log + [w'.log[|w.log|]]
    ensures Times(w'.log, e) == Times(w.log, e) + if w'.log[|w.log|] == e then 1 else 0
  {
  }

  // -------------------------------------------------------- the invariant

  function Slots(r: Option<PublicRow>): nat {
    if r.Some? then r.value.slots else 0
  }

  function Claims(r: Option<PublicRow>): nat {
    if r.Some? then r.value.claimCount else 0
  }

  function Deliveries(r: Option<PublicRow>): nat {
    if r.Some? && r.value.status == Delivered then 1 else 0
  }

  /** The log accounts for the row's counters. */
  predicate Accounted(log: seq<Event>, p: Id, r: Option<PublicRow>) {
    && Times(log, Fenced(p)) == Times(log, Released(p)) + Slots(r)
    && Times(log, Event.Claimed(p)) == Claims(r)
    && Times(log, Accepted(p)) == Deliveries(r)
  }

  function Token(q: Option<QueueState>): nat {
    if q.Some? then q.value.fencingToken else 0
  }

  function Acks(q: Option<QueueState>): nat {
    if q.Some? && q.value.status == QAcked then 1 else 0
  }

  predicate QueueAccounted(log: seq<Event>, q: Option<QueueState>, claim: Event, ack: Event) {
    Times(log, claim) == Token(q) && Times(log, ack) == Acks(q)
  }

  function FenceToken(db: Db, lead: Id): nat {
    if lead in db.states then db.states[lead].fencingToken else 0
  }

  function Version(db: Db, lead: Id): nat {
    if lead in db.states then db.states[lead].version else 0
  }

  /** How many commits of a lead advanced its state. */
  function Advances(log: seq<Event>, lead: Id): nat {
    if log == [] then 0
    else
      var last := log[|log| - 1];
      Advances(log[..|log| - 1], lead) + if last.Advanced? && last.w.Lead() == lead then 1 else 0
  }

  predicate LeadAccounted(w: World, lead: Id) {
    Times(w.log, FenceAcquired(lead)) == FenceToken(w.db, lead) && Advances(w.log, lead) == Version(w.db, lead)
  }

  lemma AdvancesAfter(w: World, w': World, lead: Id)
    requires |w'.log| == |w.log| + 1 && w'.log == w.log + [w'.log[|w.log|]]
    ensures var e := w'.log[|w.log|];
            Advances(w'.log, lead) == Advances(w.log, lead) + if e.Advanced? && e.w.Lead() == lead then 1 else 0
  {
    assert w'.log[..|w'.log| - 1] == w.log;
  }

  lemma MoveAccounts(log: seq<Event>, e: Event, p: Id, r: Option<PublicRow>, r': Option<PublicRow>)
    requires RowStep(p, r, r', e) && Accounted(log, p, r)
    ensures Accounted(log + [e], p, r')
  {
    var log' := log + [e];
    assert forall f :: Times(log', f) == Times(log, f) + if e == f then 1 else 0;
  }

  lemma StepAccountsRow(w: World, s: Step, w': World, p: Id)
    requires QueueInv(w.db) && Next(w, s, w') && Accounted(w.log, p, PublicAt(w.db, p))
    ensures Accounted(w'.log, p, PublicAt(w'.db, p))
  {
    var e := w'.log[|w.log|];
    StepMovesRow(w.db, s, w'.db, e, p);
    MoveAccounts(w.log, e, p, PublicAt(w.db, p), PublicAt(w'.db, p));
  }

  lemma StepAccountsRelay(w: World, s: Step, w': World, p: Id)
    requires Next(w, s, w') && QueueAccounted(w.log, RelayAt(w.db, p), RelayClaimed(p), RelayAcked(p))
    ensures QueueAccounted(w'.log, RelayAt(w'.db, p), RelayClaimed(p), RelayAcked(p))
  {
    StepMovesRelay(w.db, s, w'.db, w'.log[|w.log|], p);
    TimesAfter(w, w', RelayClaimed(p));
    TimesAfter(w, w', RelayAcked(p));
  }

  lemma StepAccountsJob(w: World, s: Step, w': World, p: Id)
    requires Next(w, s, w') && QueueAccounted(w.log, JobAt(w.db, p), JobClaimed(p), JobAcked(p))
    ensures QueueAccounted(w'.log, JobAt(w'.db, p), JobClaimed(p), JobAcked(p))
  {
    StepMovesJob(w.db, s, w'.db, w'.log[|w.log|], p);
    TimesAfter(w, w', JobClaimed(p));
    TimesAfter(w, w', JobAcked(p));
  }

  lemma OtherStepsKeepLeads(db: Db, s: Step, db': Db, e: Event)
    requires StepTo(db, s, db', e) && !s.OnTurn?
    ensures db'.states == db.states && !e.Advanced? && !e.FenceAcquired?
  {
    match s
    case OnPublic(p) => PublicStepFrame(db, p, db', e);
    case OnRelay(r) => RelayStepFrame(db, r, db', e);
    case OnJob(j) => JobStepFrame(db, j, db', e);
  }

  lemma StepMovesLead(db: Db, s: Step, db': Db, e: Event, lead: Id)
    requires StepTo(db, s, db', e)
    ensures FenceToken(db', lead) == FenceToken(db, lead) + if e == FenceAcquired(lead) then 1 else 0
    ensures Version(db', lead) == Version(db, lead) + if e.Advanced? && e.w.Lead() == lead then 1 else 0
  {
    if s.OnTurn? { TurnStepMovesLead(db, s.turn, db', e, lead); } else { OtherStepsKeepLeads(db, s, db', e); }
  }

  lemma TurnStepMovesLead(db: Db, s: TurnStep, db': Db, e: Event, lead: Id)
    requires TurnStepTo(db, s, db', e)
    ensures FenceToken(db', lead) == FenceToken(db, lead) + if e == FenceAcquired(lead) then 1 else 0
    ensures Version(db', lead) == Version(db, lead) + if e.Advanced? && e.w.Lead() == lead then 1 else 0
  {
    if e.Advanced? { CommitMovesLead(db, s.w, lead); }
    else if e.FenceAcquired? { AcquiredMovesLead(db, s.lead, lead); }
    else if s.CreateGenesis? && s.lead !in db.states { GenesisMovesLead(db, EmptyState(s.lead), lead); }
    else if s.ImportGenesis? && db' != db { GenesisMovesLead(db, s.i.state, lead); }
    else { assert db'.states == db.states; }
  }

  lemma AcquiredMovesLead(db: Db, l: Id, lead: Id)
    requires l in db.states
    ensures FenceToken(Acquired(db, l), lead) == FenceToken(db, lead) + if l == lead then 1 else 0
    ensures Version(Acquired(db, l), lead) == Version(db, lead)
  {
  }

  lemma GenesisMovesLead(db: Db, state: BoundaryState, lead: Id)
    requires state.leadKey !in db.states
    ensures FenceToken(WithGenesis(db, state), lead) == FenceToken(db, lead)
    ensures Version(WithGenesis(db, state), lead) == Version(db, lead)
  {
  }

  lemma CommitMovesLead(db: Db, w: TurnWrite, lead: Id)
    requires Accepts(db, w)
    ensures FenceToken(Committed(db, w), lead) == FenceToken(db, lead)
    ensures Version(Committed(db, w), lead) == Version(db, lead) + if w.Lead() == lead then 1 else 0
  {
  }

  /** Imports of `db` are still there in `db'`, and every new one has its lead's row. */
  predicate ClaimsStay(db: Db, db': Db) {
    && (forall lead :: lead in db.states ==> lead in db'.states)
    && (forall lead :: lead in db.claims ==> lead in db'.claims && db'.claims[lead] == db.claims[lead])
    && (forall lead :: lead in db'.claims && lead !in db.claims ==> lead !in db.states && lead in db'.states)
  }

  lemma TurnStepKeepsClaims(db: Db, s: TurnStep, db': Db, e: Event)
    requires TurnStepTo(db, s, db', e)
    ensures ClaimsStay(db, db')
  {
  }

  lemma StepKeepsClaims(db: Db, s: Step, db': Db, e: Event)
    requires StepTo(db, s, db', e)
    ensures ClaimsStay(db, db')
  {
    match s
    case OnTurn(t) => TurnStepKeepsClaims(db, t, db', e);
    case OnPublic(p) => PublicStepFrame(db, p, db', e);
    case OnRelay(r) => RelayStepFrame(db, r, db', e);
    case OnJob(j) => JobStepFrame(db, j, db', e);
  }

  /** A lead is imported at most once, and only if it had no row: its claim stays as
      written, and its row stays too. */
  lemma {:induction false} ImportedOnce(ws: seq<World>, steps: seq<Step>, i: nat, j: nat, lead: Id)
    requires Run(ws, steps) && i <= j < |ws|
    ensures lead in ws[i].db.claims ==>
              lead in ws[j].db.claims && ws[j].db.claims[lead] == ws[i].db.claims[lead] && lead in ws[j].db.states
    ensures lead in ws[i].db.states && lead !in ws[i].db.claims ==> lead in ws[j].db.states && lead !in ws[j].db.claims
    decreases j
  {
    if j > 0 {
      var k := if i < j then i else j - 1;
      ImportedOnce(ws, steps, k, j - 1, lead);
      assert Next(ws[j - 1], steps[j - 1], ws[j]);
      StepKeepsClaims(ws[j - 1].db, steps[j - 1], ws[j].db, ws[j].log[|ws[j - 1].log|]);
    }
  }

  /** Once a lead is imported, importing it succeeds exactly for the same state from a
      snapshot with the same hash, whatever ran in between; and it then changes nothing. */
  lemma ImportRepeatsExactly(ws: seq<World>, steps: seq<Step>, k: nat, j: nat, i: Import, again: Import)
    requires Run(ws, steps) && k < j < |ws| && k < |steps| && steps[k] == OnTurn(ImportGenesis(i))
    requires i.state.leadKey !in ws[k].db.claims && i.state.leadKey in ws[k + 1].db.claims
    requires again.state.leadKey == i.state.leadKey
    ensures ImportRefusal(ws[j].db.states, ws[j].db.claims, again).None? <==>
              again.state == i.state && again.snapshotLead == i.snapshotLead && again.snapshotHash == i.snapshotHash
  {
    assert Next(ws[k], steps[k], ws[k + 1]);
    ImportedOnce(ws, steps, k + 1, j, i.state.leadKey);
  }

  lemma StepAccountsLead(w: World, s: Step, w': World, lead: Id)
    requires Next(w, s, w') && LeadAccounted(w, lead)
    ensures LeadAccounted(w', lead)
  {
    StepMovesLead(w.db, s, w'.db, w'.log[|w.log|], lead);
    TimesAfter(w, w', FenceAcquired(lead));
    AdvancesAfter(w, w', lead);
  }

  /** Everything the log counts, for the rows named by one id. */
  ghost predicate AllAccounted(w: World, id: Id) {
    && Accounted(w.log, id, PublicAt(w.db, id))
    && QueueAccounted(w.log, RelayAt(w.db, id), RelayClaimed(id), RelayAcked(id))
    && QueueAccounted(w.log, JobAt(w.db, id), JobClaimed(id), JobAcked(id))
    && LeadAccounted(w, id)
  }

  // ------------------------------------------------------- runs in general

  lemma {:induction false} RunInv(ws: seq<World>, steps: seq<Step>, i: nat)
    requires Run(ws, steps) && i < |ws|
    ensures SystemInv(ws[i].db) && |ws[i].log| == i
  {
    if i > 0 {
      RunInv(ws, steps, i - 1);
      assert Next(ws[i - 1], steps[i - 1], ws[i]);
      StepKeepsInv(ws[i - 1].db, steps[i - 1], ws[i].db, ws[i].log[i - 1]);
    }
  }

  /** In every run the log accounts for every row, relay, job and lead. */
  lemma {:induction false} RunAccounts(ws: seq<World>, steps: seq<Step>, i: nat, id: Id)
    requires Run(ws, steps) && i < |ws|
    ensures AllAccounted(ws[i], id)
  {
    if i > 0 {
      RunInv(ws, steps, i - 1);
      RunAccounts(ws, steps, i - 1, id);
      assert Next(ws[i - 1], steps[i - 1], ws[i]);
      StepAccountsRow(ws[i - 1], steps[i - 1], ws[i], id);
      StepAccountsRelay(ws[i - 1], steps[i - 1], ws[i], id);
      StepAccountsJob(ws[i - 1], steps[i - 1], ws[i], id);
      StepAccountsLead(ws[i - 1], steps[i - 1], ws[i], id);
    }
  }

  /** Step `i` of a run moves row `p` by the event it logs. */
  lemma RunMovesRow(ws: seq<World>, steps: seq<Step>, i: nat, p: Id) returns (e: Event)
    requires Run(ws, steps) && i < |steps|
    ensures Happens(ws, i, e) && RowStep(p, PublicAt(ws[i].db, p), PublicAt(ws[i + 1].db, p), e)
  {
    RunInv(ws, steps, i);
    RunInv(ws, steps, i + 1);
    assert Next(ws[i], steps[i], ws[i + 1]);
    e := ws[i + 1].log[i];
    StepMovesRow(ws[i].db, steps[i], ws[i + 1].db, e, p);
  }

  lemma RunLogs(ws: seq<World>, steps: seq<Step>, i: nat) returns (e: Event)
    requires Run(ws, steps) && i < |steps|
    ensures Happens(ws, i, e) && StepTo(ws[i].db, steps[i], ws[i + 1].db, e)
  {
    RunInv(ws, steps, i);
    assert Next(ws[i], steps[i], ws[i + 1]);
    e := ws[i + 1].log[i];
  }

  lemma RunTakesStep(ws: seq<World>, steps: seq<Step>, i: nat, e: Event)
    requires Run(ws, steps) && Happens(ws, i, e)
    ensures QueueInv(ws[i].db) && StepTo(ws[i].db, steps[i], ws[i + 1].db, e)
  {
    RunInv(ws, steps, i);
    assert Next(ws[i], steps[i], ws[i + 1]);
  }

  // ------------------------------------------------- at-most-once dispatch

  /** Fences taken minus explicit not-called releases is the dispatch slot, never
      above one; claims are the row's claim count; at most one acceptance is ever
      stored, exactly when the row is delivered. */
  lemma DispatchAccounting(ws: seq<World>, steps: seq<Step>, i: nat, p: Id)
    requires Run(ws, steps) && i < |ws|
    ensures Times(ws[i].log, Fenced(p)) - Times(ws[i].log, Released(p)) == Slots(PublicAt(ws[i].db, p)) <= 1
    ensures Times(ws[i].log, Event.Claimed(p)) == Claims(PublicAt(ws[i].db, p))
    ensures Times(ws[i].log, Accepted(p)) <= 1
    ensures Times(ws[i].log, Accepted(p)) == 1 <==>
              p in ws[i].db.outbox && ws[i].db.outbox[p].deliveryReceipt.Some?
  {
    RunInv(ws, steps, i);
    RunAccounts(ws, steps, i, p);
    if p in ws[i].db.outbox { assert Linked(ws[i].db, p); }
  }

  /** At any moment of any run, both tables tell the same story of every row and of
      every bound allocation, and no CHECK of either table is violated. */
  lemma TablesInStep(ws: seq<World>, steps: seq<Step>, i: nat)
    requires Run(ws, steps) && i < |ws|
    ensures forall p :: p in ws[i].db.outbox ==>
              var c := ws[i].db.outbox[p].content.key;
              c in ws[i].db.authority && ws[i].db.authority[c].publicRow == Some(p) && PublicRowCheck(ws[i].db.outbox[p])
    ensures forall k :: k in ws[i].db.authority ==>
              AuthRowCheck(k, ws[i].db.authority[k])
              && (ws[i].db.authority[k].publicRow.Some? ==>
                    ws[i].db.authority[k].publicRow.value in ws[i].db.outbox
                    && InStep(ws[i].db.outbox[ws[i].db.authority[k].publicRow.value].status, ws[i].db.authority[k].state))
  {
    RunInv(ws, steps, i);
    var db := ws[i].db;
    forall p | p in db.outbox
      ensures db.outbox[p].content.key in db.authority
      ensures db.authority[db.outbox[p].content.key].publicRow == Some(p) && PublicRowCheck(db.outbox[p])
    {
      assert Linked(db, p);
    }
    forall k | k in db.authority
      ensures AuthRowCheck(k, db.authority[k])
      ensures db.authority[k].publicRow.Some? ==>
                db.authority[k].publicRow.value in db.outbox
                && InStep(db.outbox[db.authority[k].publicRow.value].status, db.authority[k].state)
    {
      assert BackLinked(db, k);
      if db.authority[k].publicRow.Some? { BoundAllocationInStep(db, k); }
    }
  }

  predicate SentOrUnknown(r: Option<PublicRow>) {
    r.Some? && (r.value.status == DispatchFenced || r.value.status == Delivered || r.value.status == ManualReview)
  }

  /** A fenced row stays out of reach of every worker for as long as nobody
      reports that the call was never made. */
  lemma {:induction false} FencedStaysOut(ws: seq<World>, steps: seq<Step>, i: nat, j: nat, p: Id)
    requires Run(ws, steps) && i <= j < |ws|
    requires SentOrUnknown(PublicAt(ws[i].db, p))
    requires forall k: nat :: i <= k < j ==> !Happens(ws, k, Released(p))
    ensures SentOrUnknown(PublicAt(ws[j].db, p))
  {
    if i < j {
      FencedStaysOut(ws, steps, i, j - 1, p);
      var e := RunMovesRow(ws, steps, j - 1, p);
      assert !Happens(ws, j - 1, Released(p));
    }
  }

  /** Whatever the clock says, recovery does not make such a row claimable. */
  lemma SentOrUnknownNotEligible(db: Db, p: Id, now: Instant)
    requires SentOrUnknown(PublicAt(db, p))
    ensures !Eligible(Recover(db, now), now, p)
  {
    assert RecoverRow(db.outbox[p], now).status != Pending;
  }

  /** Between two fences of one row some worker reported that the first call was never made. */
  lemma FencedTwiceOnlyAfterRelease(ws: seq<World>, steps: seq<Step>, i: nat, j: nat, p: Id) returns (k: nat)
    requires Run(ws, steps) && i < j
    requires Happens(ws, i, Fenced(p)) && (Happens(ws, j, Fenced(p)) || Happens(ws, j, Event.Claimed(p)))
    ensures i < k < j && Happens(ws, k, Released(p))
  {
    var e := RunMovesRow(ws, steps, i, p);
    var f := RunMovesRow(ws, steps, j, p);
    if n: nat :| i + 1 <= n < j && Happens(ws, n, Released(p)) {
      k := n;
    } else {
      FencedStaysOut(ws, steps, i + 1, j, p);
      k := i;
      assert false;
    }
  }

  // ---------------------------------------------------------------- leases

  /** The row is in flight under the lease that `worker` took at `acquired` with this token. */
  predicate UnderLease(r: Option<PublicRow>, worker: Id, token: nat, acquired: Instant, expires: Instant) {
    r.Some? && r.value.fencingToken == token
    && (InFlight(r.value.status) ==>
          r.value.owner == Some(worker) && r.value.acquiredAt == Some(acquired) && r.value.expiresAt == Some(expires))
  }

  lemma ClaimTakesLease(db: Db, worker: Id, now: Instant, ttl: int, db': Db, p: Id)
    requires PublicStepTo(db, ClaimPublic(worker, now, ttl), db', Event.Claimed(p))
    ensures now + ttl > now && p in db.outbox
    ensures UnderLease(PublicAt(db', p), worker, db.outbox[p].fencingToken + 1, now, now + ttl)
  {
    ClaimHasEffect(db, worker, now, ttl, db', Event.Claimed(p));
    RecoverRowAdvances(db.outbox[p], now);
  }

  lemma LeaseStays(p: Id, r: Option<PublicRow>, r': Option<PublicRow>, e: Event, worker: Id, token: nat,
                   acquired: Instant, expires: Instant)
    requires RowStep(p, r, r', e) && e != Event.Claimed(p) && UnderLease(r, worker, token, acquired, expires)
    ensures UnderLease(r', worker, token, acquired, expires)
  {
  }

  lemma StepKeepsLease(ws: seq<World>, steps: seq<Step>, j: nat, p: Id, worker: Id, token: nat, acquired: Instant,
                       expires: Instant)
    requires Run(ws, steps) && j < |steps| && !Happens(ws, j, Event.Claimed(p))
    requires UnderLease(PublicAt(ws[j].db, p), worker, token, acquired, expires)
    ensures UnderLease(PublicAt(ws[j + 1].db, p), worker, token, acquired, expires)
  {
    var e := RunMovesRow(ws, steps, j, p);
    LeaseStays(p, PublicAt(ws[j].db, p), PublicAt(ws[j + 1].db, p), e, worker, token, acquired, expires);
  }

  lemma ClaimStepLeases(ws: seq<World>, steps: seq<Step>, i: nat, p: Id, worker: Id, now: Instant, ttl: int)
    requires Run(ws, steps) && Happens(ws, i, Event.Claimed(p)) && steps[i] == OnPublic(ClaimPublic(worker, now, ttl))
    ensures p in ws[i].db.outbox && now + ttl > now
    ensures UnderLease(PublicAt(ws[i + 1].db, p), worker, ws[i].db.outbox[p].fencingToken + 1, now, now + ttl)
  {
    RunTakesStep(ws, steps, i, Event.Claimed(p));
    ClaimTakesLease(ws[i].db, worker, now, ttl, ws[i + 1].db, p);
  }

  /** As long as nobody claims the row again, whoever is recorded as holding it is
      the worker of its last claim, until the very time that claim was given. */
  lemma {:induction false} LeaseIsTheLastClaims(ws: seq<World>, steps: seq<Step>, i: nat, j: nat, p: Id, worker: Id,
                                                now: Instant, ttl: int)
    requires Run(ws, steps) && i < j < |ws| && Happens(ws, i, Event.Claimed(p))
    requires steps[i] == OnPublic(ClaimPublic(worker, now, ttl))
    requires forall k: nat :: i < k < j ==> !Happens(ws, k, Event.Claimed(p))
    ensures p in ws[i].db.outbox && now + ttl > now
    ensures UnderLease(PublicAt(ws[j].db, p), worker, ws[i].db.outbox[p].fencingToken + 1, now, now + ttl)
  {
    if j == i + 1 {
      ClaimStepLeases(ws, steps, i, p, worker, now, ttl);
    } else {
      LeaseIsTheLastClaims(ws, steps, i, j - 1, p, worker, now, ttl);
      StepKeepsLease(ws, steps, j - 1, p, worker, ws[i].db.outbox[p].fencingToken + 1, now, now + ttl);
    }
  }

  // ------------------------------------------------------------- ordering

  /** Rows never leave their turn, and turns keep their version. */
  lemma {:induction false} RowsPersist(ws: seq<World>, steps: seq<Step>, i: nat, j: nat, p: Id)
    requires Run(ws, steps) && i <= j < |ws| && p in ws[i].db.outbox
    ensures p in ws[j].db.outbox && ws[j].db.outbox[p].turn == ws[i].db.outbox[p].turn
    ensures ws[j].db.outbox[p].content == ws[i].db.outbox[p].content
    ensures ws[i].db.outbox[p].claimCount <= ws[j].db.outbox[p].claimCount
  {
    if i < j {
      RowsPersist(ws, steps, i, j - 1, p);
      var e := RunMovesRow(ws, steps, j - 1, p);
    }
  }

  predicate Touches(e: Event, p: Id) {
    e == Fenced(p) || e == Accepted(p)
  }

  /** A touched row has been claimed, and was live when it was touched. */
  lemma TouchedRow(ws: seq<World>, steps: seq<Step>, i: nat, p: Id, e: Event)
    requires Run(ws, steps) && Happens(ws, i, e) && Touches(e, p)
    ensures QueueInv(ws[i].db) && p in ws[i].db.outbox
    ensures Started(ws[i].db.outbox[p]) && Live(ws[i].db.outbox[p].status)
  {
    var f := RunMovesRow(ws, steps, i, p);
    RunTakesStep(ws, steps, i, e);
    assert NeedsClaim(ws[i].db.outbox[p].status);
  }

  /** Each lead's dispatches and deliveries happen in increasing
      (state_version, chunk_index) order, whoever performs them. */
  lemma DispatchesInOrder(ws: seq<World>, steps: seq<Step>, i: nat, j: nat, p: Id, q: Id, e: Event, f: Event)
    requires Run(ws, steps) && i < j && p != q
    requires Happens(ws, i, e) && Touches(e, p) && Happens(ws, j, f) && Touches(f, q)
    requires p in ws[j].db.outbox && q in ws[j].db.outbox
    requires ws[j].db.outbox[p].turn.lead == ws[j].db.outbox[q].turn.lead
    ensures QueueInv(ws[j].db) && Precedes(ws[j].db, p, q)
  {
    TouchedRow(ws, steps, i, p, e);
    TouchedRow(ws, steps, j, q, f);
    RowsPersist(ws, steps, i, j, p);
    if Precedes(ws[j].db, q, p) {
      LaterStartedRow(ws[j].db, q, p);
    } else {
      LaterStartedRow(ws[j].db, p, q);
    }
  }

  /** At any moment of any run a lead has at most one chunk leased or fenced. */
  lemma OneAtATime(ws: seq<World>, steps: seq<Step>, i: nat, p: Id, q: Id)
    requires Run(ws, steps) && i < |ws| && p in ws[i].db.outbox && q in ws[i].db.outbox
    requires InFlight(ws[i].db.outbox[p].status) && InFlight(ws[i].db.outbox[q].status)
    requires ws[i].db.outbox[q].turn.lead == ws[i].db.outbox[p].turn.lead
    ensures p == q
  {
    RunInv(ws, steps, i);
    OneInFlightPerLead(ws[i].db, p, q);
  }

  /** The delivered chunks of a turn form a prefix: a chunk that was ever claimed
      has every earlier chunk of its turn delivered. */
  lemma DeliveredChunksFormPrefix(ws: seq<World>, steps: seq<Step>, i: nat, p: Id, q: Id)
    requires Run(ws, steps) && i < |ws| && p in ws[i].db.outbox && q in ws[i].db.outbox
    requires ws[i].db.outbox[p].status == Delivered || Started(ws[i].db.outbox[p])
    requires ws[i].db.outbox[q].turn == ws[i].db.outbox[p].turn
    requires ws[i].db.outbox[q].content.chunkIndex < ws[i].db.outbox[p].content.chunkIndex
    ensures ws[i].db.outbox[q].status == Delivered
  {
    RunInv(ws, steps, i);
    PrefixDelivered(ws[i].db, p, q);
  }

  lemma PrefixDelivered(db: Db, p: Id, q: Id)
    requires QueueInv(db) && p in db.outbox && q in db.outbox
    requires db.outbox[p].status == Delivered || Started(db.outbox[p])
    requires db.outbox[q].turn == db.outbox[p].turn
    requires db.outbox[q].content.chunkIndex < db.outbox[p].content.chunkIndex
    ensures db.outbox[q].status == Delivered
  {
    assert NeedsClaim(db.outbox[p].status) ==> Started(db.outbox[p]);
    var o := DeliveredPrefix(db, p, db.outbox[q].content.chunkIndex);
    assert SameSlot(db, q, o);
  }

  // ------------------------------------------------ supersede xor dispatch

  lemma {:induction false} CancelledStays(ws: seq<World>, steps: seq<Step>, i: nat, j: nat, p: Id)
    requires Run(ws, steps) && i <= j < |ws|
    requires IsCancelled(PublicAt(ws[i].db, p))
    ensures IsCancelled(PublicAt(ws[j].db, p))
  {
    if i < j {
      CancelledStays(ws, steps, i, j - 1, p);
      var e := RunMovesRow(ws, steps, j - 1, p);
    }
  }

  predicate IsCancelled(r: Option<PublicRow>) {
    r.Some? && r.value.status == Cancelled
  }

  lemma CancelledUntouched(ws: seq<World>, steps: seq<Step>, j: nat, e: Event, p: Id)
    requires Run(ws, steps) && Happens(ws, j, e) && IsCancelled(PublicAt(ws[j].db, p))
    ensures !Concerns(e, p)
  {
    var f := RunMovesRow(ws, steps, j, p);
  }

  /** Once a commit supersedes a turn, none of its chunks has been sent and none
      ever will be: each is cancelled for good, with every fence taken on it
      released, nothing accepted, and no worker able to touch it again. */
  lemma SupersededNeverSent(ws: seq<World>, steps: seq<Step>, i: nat, j: nat, w: TurnWrite, p: Id)
    requires Run(ws, steps) && i < j < |ws| && Happens(ws, i, Advanced(w))
    requires p in ws[i].db.outbox && IsSuperseded(ws[i].db.outbox[p], w)
    ensures IsCancelled(PublicAt(ws[j].db, p))
    ensures Times(ws[j].log, Fenced(p)) == Times(ws[j].log, Released(p)) && Times(ws[j].log, Accepted(p)) == 0
    ensures forall e :: Happens(ws, j, e) ==> !Concerns(e, p)
  {
    RunTakesStep(ws, steps, i, Advanced(w));
    SupersedingCancels(ws[i].db, steps[i], ws[i + 1].db, w, p);
    CancelledStays(ws, steps, i + 1, j, p);
    CancelledHasNoSlot(ws, steps, j, p);
    forall e | Happens(ws, j, e) ensures !Concerns(e, p) { CancelledUntouched(ws, steps, j, e, p); }
  }

  lemma CancelledHasNoSlot(ws: seq<World>, steps: seq<Step>, j: nat, p: Id)
    requires Run(ws, steps) && j < |ws| && IsCancelled(PublicAt(ws[j].db, p))
    ensures Times(ws[j].log, Fenced(p)) == Times(ws[j].log, Released(p)) && Times(ws[j].log, Accepted(p)) == 0
  {
    RunAccounts(ws, steps, j, p);
    RunInv(ws, steps, j);
    assert Linked(ws[j].db, p);
  }

  lemma SupersedingCancels(db: Db, s: Step, db': Db, w: TurnWrite, p: Id)
    requires QueueInv(db) && StepTo(db, s, db', Advanced(w)) && p in db.outbox && IsSuperseded(db.outbox[p], w)
    ensures IsCancelled(PublicAt(db', p))
  {
    OnlyCommitAdvances(db, s, db', w);
    CommittedGainsRows(db, w);
    assert Cancelling(db, w).outbox[p] == CancelledRow(db.outbox[p]);
  }

  /** A superseding commit is refused as long as any chunk of the turn holds its
      dispatch slot or has left the queue some other way. */
  lemma SlotBlocksSupersede(db: Db, w: TurnWrite, p: Id)
    requires p in db.outbox && IsSuperseded(db.outbox[p], w)
    requires db.outbox[p].slots > 0 || !(db.outbox[p].status == Pending || db.outbox[p].status == Leased)
    ensures !AllCancellable(db, w) && !Accepts(db, w)
  {
    if AllCancellable(db, w) { SupersededRow(db, w, p); }
  }

  // ------------------------------------------------- fenced linear history

  /** A lead's version is the number of its accepted commits, and its receipts
      are one chain with exactly one receipt per version. */
  lemma FencedLinearHistory(ws: seq<World>, steps: seq<Step>, i: nat, lead: Id)
    requires Run(ws, steps) && i < |ws| && lead in ws[i].db.states
    ensures Linear(ws[i].db.states, ws[i].db.events)
    ensures |set k | k in ws[i].db.events && k.lead == lead| == ws[i].db.states[lead].version
    ensures ws[i].db.states[lead].version == Advances(ws[i].log, lead)
  {
    RunInv(ws, steps, i);
    RunAccounts(ws, steps, i, lead);
    ReceiptsCoverVersions(ws[i].db.states, ws[i].db.events, lead);
  }

  /** Every accepted commit carries the newest of all the fence tokens handed out
      for its lead so far, and builds on the version the previous one produced. */
  lemma NewestTokenAdvances(ws: seq<World>, steps: seq<Step>, i: nat, w: TurnWrite)
    requires Run(ws, steps) && Happens(ws, i, Advanced(w))
    ensures w.token == Times(ws[i].log, FenceAcquired(w.Lead()))
    ensures w.expected == Advances(ws[i].log, w.Lead())
  {
    RunAccounts(ws, steps, i, w.Lead());
    RunTakesStep(ws, steps, i, Advanced(w));
    AdvanceIsCurrent(ws[i].db, steps[i], ws[i + 1].db, w);
  }

  lemma AdvanceIsCurrent(db: Db, s: Step, db': Db, w: TurnWrite)
    requires StepTo(db, s, db', Advanced(w))
    ensures StateCurrent(db, w)
  {
    OnlyCommitAdvances(db, s, db', w);
  }

  // ------------------------------------------------ relay and job leases

  /** A relay's token counts its claims, it is acknowledged at most once, and it
      awaits manual review exactly after three failed preparations. */
  lemma RelayAccounting(ws: seq<World>, steps: seq<Step>, i: nat, p: Id)
    requires Run(ws, steps) && i < |ws| && p in ws[i].db.relays
    ensures var q := ws[i].db.relays[p].queue;
            && q.fencingToken == q.claimCount == Times(ws[i].log, RelayClaimed(p))
            && Times(ws[i].log, RelayAcked(p)) == (if q.status == QAcked then 1 else 0)
            && (q.status == QManualReview <==> q.failures == 3)
  {
    RunInv(ws, steps, i);
    RunAccounts(ws, steps, i, p);
    assert QueueOk(ws[i].db.relays[p].queue);
  }

  lemma JobAccounting(ws: seq<World>, steps: seq<Step>, i: nat, p: Id)
    requires Run(ws, steps) && i < |ws| && p in ws[i].db.jobs
    ensures var q := ws[i].db.jobs[p].queue;
            && q.fencingToken == q.claimCount == Times(ws[i].log, JobClaimed(p))
            && Times(ws[i].log, JobAcked(p)) == (if q.status == QAcked then 1 else 0)
            && (q.status == QManualReview <==> q.failures == 3)
  {
    RunInv(ws, steps, i);
    RunAccounts(ws, steps, i, p);
    assert QueueOk(ws[i].db.jobs[p].queue);
  }

  /** A claim is superseded once its row was claimed again or settled. */
  predicate Superseded(q: Option<QueueState>, token: nat) {
    q.Some? && (q.value.fencingToken > token || (q.value.fencingToken == token && q.value.status != QLeased))
  }

  lemma {:induction false} RelayStaysSuperseded(ws: seq<World>, steps: seq<Step>, i: nat, j: nat, c: RelayClaim)
    requires Run(ws, steps) && i <= j < |ws| && Superseded(RelayAt(ws[i].db, c.relayId), c.token)
    ensures Superseded(RelayAt(ws[j].db, c.relayId), c.token)
  {
    if i < j {
      RelayStaysSuperseded(ws, steps, i, j - 1, c);
      assert Next(ws[j - 1], steps[j - 1], ws[j]);
      StepMovesRelay(ws[j - 1].db, steps[j - 1], ws[j].db, ws[j].log[|ws[j - 1].log|], c.relayId);
    }
  }

  /** The step completes or releases a relay under that claim or an earlier one. */
  predicate SettlesRelay(s: Step, c: RelayClaim) {
    s.OnRelay? && !s.relay.ClaimRelay? && s.relay.relay.relayId == c.relayId && s.relay.relay.token <= c.token
  }

  /** Once a relay claim is superseded, completing or releasing it, or an earlier
      one, leaves the store as it is at every later point of the run. */
  lemma StaleRelayClaim(ws: seq<World>, steps: seq<Step>, i: nat, j: nat, c: RelayClaim)
    requires Run(ws, steps) && i <= j < |steps|
    requires Superseded(RelayAt(ws[i].db, c.relayId), c.token) && SettlesRelay(steps[j], c)
    ensures ws[j + 1].db == ws[j].db && ws[j + 1].log == ws[j].log + [Quiet]
  {
    RelayStaysSuperseded(ws, steps, i, j, c);
    assert Next(ws[j], steps[j], ws[j + 1]);
    SupersededRelaySettles(ws[j].db, steps[j].relay, c, ws[j + 1].db, ws[j + 1].log[|ws[j].log|]);
  }

  lemma SupersededRelaySettles(db: Db, s: RelayStep, c: RelayClaim, db': Db, e: Event)
    requires Superseded(RelayAt(db, c.relayId), c.token) && SettlesRelay(OnRelay(s), c) && RelayStepTo(db, s, db', e)
    ensures db' == db && e == Quiet
  {
  }

  lemma {:induction false} JobStaysSuperseded(ws: seq<World>, steps: seq<Step>, i: nat, j: nat, c: JobClaim)
    requires Run(ws, steps) && i <= j < |ws| && Superseded(JobAt(ws[i].db, c.jobId), c.token)
    ensures Superseded(JobAt(ws[j].db, c.jobId), c.token)
  {
    if i < j {
      JobStaysSuperseded(ws, steps, i, j - 1, c);
      assert Next(ws[j - 1], steps[j - 1], ws[j]);
      StepMovesJob(ws[j - 1].db, steps[j - 1], ws[j].db, ws[j].log[|ws[j - 1].log|], c.jobId);
    }
  }

  /** The step completes or releases a job under that claim or an earlier one. */
  predicate SettlesJob(s: Step, c: JobClaim) {
    s.OnJob? && !s.job.ClaimJob? && s.job.job.jobId == c.jobId && s.job.job.token <= c.token
  }

  /** Once a job claim is superseded, completing or releasing it, or an earlier
      one, leaves the store as it is at every later point of the run. */
  lemma StaleJobClaim(ws: seq<World>, steps: seq<Step>, i: nat, j: nat, c: JobClaim)
    requires Run(ws, steps) && i <= j < |steps|
    requires Superseded(JobAt(ws[i].db, c.jobId), c.token) && SettlesJob(steps[j], c)
    ensures ws[j + 1].db == ws[j].db && ws[j + 1].log == ws[j].log + [Quiet]
  {
    JobStaysSuperseded(ws, steps, i, j, c);
    assert Next(ws[j], steps[j], ws[j + 1]);
    SupersededJobSettles(ws[j].db, steps[j].job, c, ws[j + 1].db, ws[j + 1].log[|ws[j].log|]);
  }

  lemma SupersededJobSettles(db: Db, s: JobStep, c: JobClaim, db': Db, e: Event)
    requires Superseded(JobAt(db, c.jobId), c.token) && SettlesJob(OnJob(s), c) && JobStepTo(db, s, db', e)
    ensures db' == db && e == Quiet
  {
  }
}
