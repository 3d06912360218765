/** One coordinated turn: read, fence, reduce, commit, as two transactions on the
    version 7 store with arbitrary clocks, import sources and kernel decisions. */
module Coordinator {
  import opened Options
  import opened Tables
  import opened TurnCommit
  import opened Phase7Store
  import Base = BoundaryStore

  datatype Envelope = Envelope(lead: Id, event: Id, contentHash: Digest, deadline: Instant)

  /** Where a missing lead comes from: nowhere, the legacy importer, or its rejection. */
  datatype Source = Native | Migrated(imported: Import) | RejectedImport

  /** What the kernel returned for the intent of the event. */
  datatype Decision = Decision(
    state: BoundaryState, readRequests: nat, facts: seq<TypedFact>, commands: seq<Command>, outbox: seq<OutboxMessage>)

  // ---------------------------------------------------- the kernel's answer

  /** `_validate_decision`. */
  predicate ValidDecision(current: VersionedState, event: Id, d: Decision) {
    && d.state.leadKey == current.state.leadKey && d.state.version == current.version
    && event !in d.state.processedEventIds
    && d.readRequests == 0 && d.facts == []
    && (forall i :: 0 <= i < |d.commands| && d.commands[i].kind == Reservation ==>
          d.state.workflow.Some? && d.commands[i].subjectId == d.state.workflow.value.workflowId)
    && OutboxBinds(BoundaryCommit(d.state, d.commands, d.outbox, []))
  }

  function NextState(current: VersionedState, event: Id, d: Decision): BoundaryState {
    d.state.(version := current.version + 1, processedEventIds := d.state.processedEventIds + [event])
  }

  function CommitOf(env: Envelope, current: VersionedState, token: nat, d: Decision): EventCommit {
    EventCommit(env.event, env.contentHash, current.version, token,
                BoundaryCommit(NextState(current, env.event, d), d.commands, d.outbox, []))
  }

  /** What the kernel check accepts, the store does not refuse for its bindings. */
  lemma ValidDecisionBinds(env: Envelope, current: VersionedState, token: nat, d: Decision)
    requires ValidDecision(current, env.event, d)
    ensures var e := CommitOf(env, current, token, d);
            && OutboxBinds(e.commit) && e.commit.facts == [] && e.commit.state.version == e.expected + 1
            && forall i: nat :: i < |e.commit.commands| && e.commit.commands[i].kind == Reservation ==>
                 BindsWorkflow(e.commit.commands[i], e.commit.state.workflow)
  {
    var e := CommitOf(env, current, token, d);
    forall i | 0 <= i < |e.commit.outbox| ensures IsWorkflow(e.commit.state, e.commit.outbox[i].workflowId) {
      assert IsWorkflow(d.state, d.outbox[i].workflowId);
    }
  }

  // ------------------------------------------------------- the transactions

  datatype Step7<T> = Step7(db: Db7, result: Result<T>)

  /** `_load_or_import`: the inner import conflict is caught and the state read again. */
  function LoadedOrImported(db: Db7, lead: Id, source: Source): Step7<VersionedState> {
    if LoadState(db, lead) != Err(StateNotFound) then Step7(db, LoadState(db, lead))
    else match source
    case Native =>
      var db' := db.(states := db.states[lead := GenesisOf(Base.EmptyState(lead))]);
      Step7(db', LoadState(db', lead))
    case RejectedImport => Step7(db, Err(TurnImportRejected))
    case Migrated(i) =>
      if i.snapshotLead != lead then Step7(db, Err(TurnImportRejected))
      else
        var refused := ImportRefusal(db, i);
        if refused == Some(IdentityConflict) then Step7(db, LoadState(db, lead))
        else if refused.Some? then Step7(db, Err(refused.value))
        else if lead in db.claims then Step7(db, LoadState(db, lead))
        else Step7(Imported(db, i), Ok(Base.VersionedState(i.state, 0, StateDigest(i.state))))
  }

  /** The first transaction, with the clock readings at its two ends. */
  function FenceTurn(db: Db7, env: Envelope, source: Source, before: Instant, after: Instant)
    : Step7<(VersionedState, nat)>
  {
    if before >= env.deadline then Step7(db, Err(TurnDeadlineExceeded))
    else
      var loaded := LoadedOrImported(db, env.lead, source);
      if loaded.result.Err? then Step7(db, Err(loaded.result.error))
      else
        var current := LoadState(loaded.db, env.lead);
        if current.Err? then Step7(db, Err(current.error))
        else if after >= env.deadline then Step7(db, Err(TurnDeadlineExceeded))
        else Step7(Acquired7(loaded.db, env.lead), Ok((current.value, loaded.db.states[env.lead].fencingToken + 1)))
  }

  /** The second: the decision is checked, then committed. */
  function CommitTurn(db: Db7, env: Envelope, current: VersionedState, token: nat, d: Decision,
                      committedAt: Instant, before: Instant, after: Instant): Step7<BoundaryState>
  {
    var e := CommitOf(env, current, token, d);
    if !ValidDecision(current, env.event, d) then Step7(db, Err(InvalidKernelDecision))
    else if committedAt >= env.deadline || before >= env.deadline then Step7(db, Err(TurnDeadlineExceeded))
    else if CommitResult(db, e).Err? then Step7(db, Err(CommitResult(db, e).error))
    else if CommitResult(db, e).value.state != e.commit.state then Step7(db, Err(InvalidKernelDecision))
    else if after >= env.deadline then Step7(db, Err(TurnDeadlineExceeded))
    else Step7(if Phase7Store.Advances(db, e) then Advanced7(db, e) else db, Ok(e.commit.state))
  }

  /** A genesis row that was fenced once. */
  function FirstFence(state: BoundaryState): StateRow {
    GenesisOf(state).(fencingToken := 1)
  }

  /** What fencing a lead may do to a store, all of it: nothing; the next token of
      the lead; or, for a missing lead, its first row with token 1, which holds the
      empty state, or the imported one together with the claim on its snapshot. */
  predicate OnlyFence(db: Db7, db': Db7, lead: Id, source: Source) {
    || db' == db
    || (lead in db.states
        && db' == db.(states := db.states[lead := db.states[lead].(fencingToken := db.states[lead].fencingToken + 1)]))
    || (lead !in db.states && source.Native?
        && db' == db.(states := db.states[lead := FirstFence(Base.EmptyState(lead))]))
    || (lead !in db.states && source.Migrated? && FirstImport(db, db', lead, source.imported))
  }

  predicate FirstImport(db: Db7, db': Db7, lead: Id, i: Import) {
    && lead !in db.claims && i.snapshotLead == lead == i.state.leadKey && i.state.version == 0
    && db' == db.(states := db.states[lead := FirstFence(i.state)],
                  claims := db.claims[lead := ImportClaimOf(i)])
  }

  /** A missing lead is found afterwards only if it got its genesis row. */
  lemma LoadAddsGenesis(db: Db7, lead: Id, source: Source)
    ensures var s := LoadedOrImported(db, lead, source);
            || s.db == db
            || (lead !in db.states && source.Native? && s.db == db.(states := db.states[lead := GenesisOf(Base.EmptyState(lead))]))
            || (lead !in db.states && source.Migrated? && lead !in db.claims && s.db == Imported(db, source.imported)
                && source.imported.snapshotLead == lead == source.imported.state.leadKey && source.imported.state.version == 0)
  {
  }

  lemma AcquiredOnlyFences(db: Db7, mid: Db7, lead: Id, source: Source)
    requires lead in mid.states && mid == LoadedOrImported(db, lead, source).db
    ensures OnlyFence(db, Acquired7(mid, lead), lead, source)
  {
    LoadAddsGenesis(db, lead, source);
    var db' := Acquired7(mid, lead);
    if mid != db {
      assert db'.states == db.states[lead := db'.states[lead]];
    }
  }

  lemma FenceTurnOnlyFences(db: Db7, env: Envelope, source: Source, before: Instant, after: Instant)
    ensures var s := FenceTurn(db, env, source, before, after);
            && OnlyFence(db, s.db, env.lead, source)
            && (s.result.Err? ==> s.db == db)
            && (s.result.Ok? ==> before < env.deadline && after < env.deadline && s.db != db
                                 && env.lead in s.db.states && s.db.states[env.lead].fencingToken == s.result.value.1
                                 && s.result.value.1 >= 1)
  {
    var mid := LoadedOrImported(db, env.lead, source).db;
    if FenceTurn(db, env, source, before, after).result.Ok? {
      LoadAddsGenesis(db, env.lead, source);
      AcquiredOnlyFences(db, mid, env.lead, source);
    }
  }

  /** A commit that raises leaves the store as it was; one that returns was inside the deadline. */
  lemma CommitTurnIsAtomic(db: Db7, env: Envelope, current: VersionedState, token: nat, d: Decision,
                           committedAt: Instant, before: Instant, after: Instant)
    requires current.state.leadKey == env.lead
    ensures var s := CommitTurn(db, env, current, token, d, committedAt, before, after);
            && (s.result.Err? ==> s.db == db)
            && (s.result.Ok? ==> after < env.deadline && s.result.value == NextState(current, env.event, d)
                                 && EventKey(env.lead, env.event) in s.db.events)
            && (s.db != db ==> s.result.Ok? && Phase7Store.Advances(db, CommitOf(env, current, token, d)))
  {
  }

  // --------------------------------------------------------- the whole turn

  /** The clock readings of one turn, in the order they are taken. */
  datatype Clock = Clock(
    started: Instant, fenceBefore: Instant, fenceAfter: Instant,
    committedAt: Instant, commitBefore: Instant, commitAfter: Instant)

  datatype Plan = Plan(state: BoundaryState, duplicate: bool)

  /** A turn nobody interferes with; `kernel` is missing when the intent or kernel port raises. */
  function Coordinated(db: Db7, env: Envelope, source: Source, kernel: Option<Decision>, clock: Clock): Step7<Plan> {
    var key := EventKey(env.lead, env.event);
    if clock.started >= env.deadline then Step7(db, Err(TurnDeadlineExceeded))
    else if key in db.events then
      if db.events[key].eventHash != env.contentHash then Step7(db, Err(TurnEventConflict))
      else
        var r := LoadState(db, env.lead);
        Step7(db, if r.Ok? then Ok(Plan(r.value.state, true)) else Err(r.error))
    else
      var f := FenceTurn(db, env, source, clock.fenceBefore, clock.fenceAfter);
      if f.result.Err? then Step7(f.db, Err(f.result.error))
      else Resumed(f.db, env, f.result.value.0, f.result.value.1, kernel, clock)
  }

  /** The turn after its fence. */
  function Resumed(db: Db7, env: Envelope, current: VersionedState, token: nat, kernel: Option<Decision>, clock: Clock)
    : Step7<Plan>
  {
    if kernel.None? then Step7(db, Err(InvalidKernelDecision))
    else
      var c := CommitTurn(db, env, current, token, kernel.value, clock.committedAt, clock.commitBefore, clock.commitAfter);
      Step7(c.db, if c.result.Ok? then Ok(Plan(c.result.value, false)) else Err(c.result.error))
  }

  lemma ResumedRaisesUnchanged(db: Db7, env: Envelope, current: VersionedState, token: nat, kernel: Option<Decision>,
                               clock: Clock)
    requires current.state.leadKey == env.lead
    ensures var s := Resumed(db, env, current, token, kernel, clock);
            if s.result.Err? then s.db == db else !s.result.value.duplicate
  {
    if kernel.Some? {
      CommitTurnIsAtomic(db, env, current, token, kernel.value, clock.committedAt, clock.commitBefore, clock.commitAfter);
    }
  }

  /** A turn that raises leaves every state, event, command and message as it was,
      apart from its lead's genesis row and next fence token; a duplicate changes
      nothing at all. */
  lemma RaisedTurnOnlyFences(db: Db7, env: Envelope, source: Source, kernel: Option<Decision>, clock: Clock)
    ensures var s := Coordinated(db, env, source, kernel, clock);
            && (s.result.Err? ==> OnlyFence(db, s.db, env.lead, source))
            && (s.result.Ok? && s.result.value.duplicate ==> s.db == db)
  {
    if clock.started >= env.deadline || EventKey(env.lead, env.event) in db.events { return; }
    FenceTurnOnlyFences(db, env, source, clock.fenceBefore, clock.fenceAfter);
    var f := FenceTurn(db, env, source, clock.fenceBefore, clock.fenceAfter);
    if f.result.Ok? { ResumedRaisesUnchanged(f.db, env, f.result.value.0, f.result.value.1, kernel, clock); }
  }

  /** The second transaction, on a store where the event is new, advances the lead in time. */
  lemma FreshCommitAdvances(db: Db7, env: Envelope, current: VersionedState, token: nat, d: Decision,
                            committedAt: Instant, before: Instant, after: Instant)
    requires current.state.leadKey == env.lead && EventKey(env.lead, env.event) !in db.events
    requires CommitTurn(db, env, current, token, d, committedAt, before, after).result.Ok?
    ensures after < env.deadline
    ensures var s := CommitTurn(db, env, current, token, d, committedAt, before, after);
            && s.result.value == NextState(current, env.event, d)
            && EventKey(env.lead, env.event) in s.db.events
            && env.lead in s.db.states && s.db.states[env.lead].version == s.result.value.version
            && s.db.states[env.lead].stateHash == StateDigest(s.result.value)
  {
  }

  /** A completed turn committed exactly its own, new event before the deadline. */
  lemma CompletedTurnCommits(db: Db7, env: Envelope, source: Source, kernel: Option<Decision>, clock: Clock)
    requires Coordinated(db, env, source, kernel, clock).result.Ok?
    requires !Coordinated(db, env, source, kernel, clock).result.value.duplicate
    ensures var s := Coordinated(db, env, source, kernel, clock); var state := s.result.value.state;
            && clock.commitAfter < env.deadline && env.event in state.processedEventIds
            && EventKey(env.lead, env.event) !in db.events && EventKey(env.lead, env.event) in s.db.events
            && env.lead in s.db.states && s.db.states[env.lead].version == state.version
            && s.db.states[env.lead].stateHash == StateDigest(state)
  {
    FenceTurnOnlyFences(db, env, source, clock.fenceBefore, clock.fenceAfter);
    var f := FenceTurn(db, env, source, clock.fenceBefore, clock.fenceAfter);
    FreshCommitAdvances(f.db, env, f.result.value.0, f.result.value.1, kernel.value,
                        clock.committedAt, clock.commitBefore, clock.commitAfter);
  }

  // ------------------------------------------------ what a plan consists of

  /** The state of a plan: the decision's in every field but the version, which is
      the next one, and the processed events, which gain this one at the end. */
  predicate PlansState(state: BoundaryState, fenced: VersionedState, d: Decision, event: Id) {
    && state.leadKey == d.state.leadKey && state.workflow == d.state.workflow && state.payments == d.state.payments
    && state.conversation == d.state.conversation
    && state.version == fenced.version + 1
    && |state.processedEventIds| == |d.state.processedEventIds| + 1
    && state.processedEventIds[|d.state.processedEventIds|] == event
    && forall i :: 0 <= i < |d.state.processedEventIds| ==> state.processedEventIds[i] == d.state.processedEventIds[i]
  }

  /** The lead's row and the event of a plan, and nothing else of either table. */
  predicate PlanInTables(db: Db7, db': Db7, env: Envelope, state: BoundaryState, d: Decision) {
    var key := EventKey(env.lead, env.event);
    && key !in db.events && env.lead in db.states
    && db'.events == db.events[key := EventRow7(env.contentHash, CommitDigest(BoundaryCommit(state, d.commands, d.outbox, [])),
                                                state.version)]
    && db'.states == db.states[env.lead := StateRow(state.version, Canonical(state), StateDigest(state),
                                                    db.states[env.lead].fencingToken)]
    && db'.claims == db.claims
  }

  /** Every command and message of the decision is stored under the event, no old row
      changed, and no other row was added. */
  ghost predicate PlanRows(db: Db7, db': Db7, env: Envelope, d: Decision) {
    var key := EventKey(env.lead, env.event);
    && (forall i: nat :: i < |d.commands| ==> CommandStoredAt(db, db', key, d.commands[i]))
    && (forall i: nat :: i < |d.outbox| ==> MessageStoredAt(db, db', key, d.outbox[i]))
    && (forall k :: k in db.commands ==> k in db'.commands && db'.commands[k] == db.commands[k])
    && (forall k :: k in db'.commands && k !in db.commands ==> exists i: nat :: i < |d.commands| && d.commands[i].commandId == k)
    && (forall k :: k in db.outbox ==> k in db'.outbox && db'.outbox[k] == db.outbox[k])
    && (forall k :: k in db'.outbox && k !in db.outbox ==> exists i: nat :: i < |d.outbox| && d.outbox[i].messageId == k)
  }

  predicate CommandStoredAt(db: Db7, db': Db7, key: EventKey, c: Command) {
    c.commandId !in db.commands && c.commandId in db'.commands && db'.commands[c.commandId] == CommandRow7(key, c)
  }

  predicate MessageStoredAt(db: Db7, db': Db7, key: EventKey, m: OutboxMessage) {
    m.messageId !in db.outbox && m.messageId in db'.outbox && db'.outbox[m.messageId] == MessageRow7(key, m)
  }

  lemma AdvancedHasRows(db: Db7, env: Envelope, d: Decision, e: EventCommit)
    requires Phase7Store.Advances(db, e) && e.Key() == EventKey(env.lead, env.event)
    requires e.commit.commands == d.commands && e.commit.outbox == d.outbox
    ensures PlanRows(db, Advanced7(db, e), env, d)
  {
    CommandsTable7(db.commands, e, |e.commit.commands|);
    MessagesTable7(db.outbox, e, |e.commit.outbox|);
  }

  /** A commit that returns hands back the plan, and on a new event stores exactly it. */
  lemma CommitStoresPlan(db: Db7, env: Envelope, current: VersionedState, token: nat, d: Decision,
                         committedAt: Instant, before: Instant, after: Instant)
    requires current.state.leadKey == env.lead
    requires CommitTurn(db, env, current, token, d, committedAt, before, after).result.Ok?
    ensures var s := CommitTurn(db, env, current, token, d, committedAt, before, after);
            && PlansState(s.result.value, current, d, env.event)
            && (EventKey(env.lead, env.event) !in db.events ==>
                  PlanInTables(db, s.db, env, s.result.value, d) && PlanRows(db, s.db, env, d))
            && (EventKey(env.lead, env.event) in db.events ==> s.db == db)
  {
    var e := CommitOf(env, current, token, d);
    if EventKey(env.lead, env.event) !in db.events { AdvancedHasRows(db, env, d, e); }
  }

  /** A completed turn is the kernel's decision on the state it was fenced with: its
      plan, and the rows it adds to what the fence left, are that and nothing else. */
  lemma CompletedTurnStoresDecision(db: Db7, env: Envelope, source: Source, kernel: Option<Decision>, clock: Clock)
    requires Coordinated(db, env, source, kernel, clock).result.Ok?
    requires !Coordinated(db, env, source, kernel, clock).result.value.duplicate
    ensures var s := Coordinated(db, env, source, kernel, clock);
            var f := FenceTurn(db, env, source, clock.fenceBefore, clock.fenceAfter);
            && kernel.Some? && f.result.Ok?
            && PlansState(s.result.value.state, f.result.value.0, kernel.value, env.event)
            && PlanInTables(f.db, s.db, env, s.result.value.state, kernel.value)
            && PlanRows(f.db, s.db, env, kernel.value)
  {
    FenceTurnOnlyFences(db, env, source, clock.fenceBefore, clock.fenceAfter);
    var f := FenceTurn(db, env, source, clock.fenceBefore, clock.fenceAfter);
    FencedStateIsLeads(db, env, source, clock.fenceBefore, clock.fenceAfter);
    CommitStoresPlan(f.db, env, f.result.value.0, f.result.value.1, kernel.value,
                     clock.committedAt, clock.commitBefore, clock.commitAfter);
  }

  /** The state a turn is fenced with is the lead's stored state, under its stored version. */
  lemma FencedStateIsLeads(db: Db7, env: Envelope, source: Source, before: Instant, after: Instant)
    requires FenceTurn(db, env, source, before, after).result.Ok?
    ensures var s := FenceTurn(db, env, source, before, after); var v := s.result.value.0;
            && v.state.leadKey == env.lead && v.state.version == v.version && v.hash == StateDigest(v.state)
            && env.lead in s.db.states && s.db.states[env.lead].version == v.version
            && s.db.states[env.lead].stateJson == Canonical(v.state) && s.db.states[env.lead].stateHash == v.hash
            && s.db.events == db.events
  {
    FenceTurnOnlyFences(db, env, source, before, after);
  }

  // -------------------------------------------------------------- the class

  class TurnCoordinator {
    const store: SQLiteBoundaryStore7

    constructor (store: SQLiteBoundaryStore7)
      ensures this.store == store
    {
      this.store := store;
    }

    method LoadOrImport(lead: Id, source: Source) returns (r: Result<VersionedState>)
      modifies store
      ensures Step7(store.db, r) == LoadedOrImported(old(store.db), lead, source)
    {
      r := LoadState(store.db, lead);
      if r != Err(StateNotFound) { return; }
      match source
      case Native => r := store.CreateGenesis(lead);
      case RejectedImport => r := Err(TurnImportRejected);
      case Migrated(i) =>
        if i.snapshotLead != lead { return Err(TurnImportRejected); }
        r := store.ImportGenesis(i);
        if r == Err(IdentityConflict) { r := LoadState(store.db, lead); }
    }

    method FenceTransaction(env: Envelope, source: Source, before: Instant, after: Instant)
      returns (r: Result<(VersionedState, nat)>)
      modifies store
      ensures Step7(store.db, r) == FenceTurn(old(store.db), env, source, before, after)
    {
      if before >= env.deadline { return Err(TurnDeadlineExceeded); }
      var saved := store.db;
      var loaded := LoadOrImport(env.lead, source);
      if loaded.Err? {
        store.db := saved;
        return Err(loaded.error);
      }
      r := store.AcquireFence(env.lead);
      if r.Err? {
        store.db := saved;
        return;
      }
      if after >= env.deadline {
        store.db := saved;
        return Err(TurnDeadlineExceeded);
      }
    }

    method CommitTransaction(env: Envelope, current: VersionedState, token: nat, d: Decision,
                             committedAt: Instant, before: Instant, after: Instant) returns (r: Result<BoundaryState>)
      modifies store
      ensures Step7(store.db, r) == CommitTurn(old(store.db), env, current, token, d, committedAt, before, after)
    {
      if !ValidDecision(current, env.event, d) { return Err(InvalidKernelDecision); }
      if committedAt >= env.deadline || before >= env.deadline { return Err(TurnDeadlineExceeded); }
      var saved := store.db;
      var e := CommitOf(env, current, token, d);
      var persisted := store.Commit(e);
      if persisted.Err? { return Err(persisted.error); }
      if persisted.value.state != e.commit.state {
        store.db := saved;
        return Err(InvalidKernelDecision);
      }
      if after >= env.deadline {
        store.db := saved;
        return Err(TurnDeadlineExceeded);
      }
      return Ok(e.commit.state);
    }

    /** `coordinate`, with nobody else at work on the store. */
    method Coordinate(env: Envelope, source: Source, kernel: Option<Decision>, clock: Clock) returns (r: Result<Plan>)
      modifies store
      ensures Step7(store.db, r) == Coordinated(old(store.db), env, source, kernel, clock)
    {
      if clock.started >= env.deadline { return Err(TurnDeadlineExceeded); }
      var key := EventKey(env.lead, env.event);
      if key in store.db.events {
        if store.db.events[key].eventHash != env.contentHash { return Err(TurnEventConflict); }
        var current := LoadState(store.db, env.lead);
        if current.Err? { return Err(current.error); }
        return Ok(Plan(current.value.state, true));
      }
      var fenced := FenceTransaction(env, source, clock.fenceBefore, clock.fenceAfter);
      if fenced.Err? { return Err(fenced.error); }
      if kernel.None? { return Err(InvalidKernelDecision); }
      var persisted := CommitTransaction(env, fenced.value.0, fenced.value.1, kernel.value,
                                         clock.committedAt, clock.commitBefore, clock.commitAfter);
      if persisted.Err? { return Err(persisted.error); }
      return Ok(Plan(persisted.value, false));
    }
  }
}
