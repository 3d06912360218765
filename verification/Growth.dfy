/** Committed turns are frozen: a step only adds rows of turns that had no event
    before, and changes no column that a commit wrote except a job's target. */
module Growth {
  import opened Tables
  import opened TurnWrites
  import opened TurnCommit
  import opened TurnTables
  import opened QueueInvariant
  import opened LeaseQueue
  import opened Steps
  import opened StepInvariant
  import opened RowSteps

  type Events = map<TurnKey, EventRow>

  /** The turn's event appeared between `events` and `events'`. */
  predicate NewTurn(events: Events, events': Events, k: TurnKey) {
    k !in events && k in events'
  }

  ghost predicate EventsGrow(events: Events, events': Events) {
    forall k :: k in events ==> k in events' && events'[k] == events[k]
  }

  ghost predicate SourcesGrow(events: Events, events': Events, t: map<SourceKey, SourceRow>, t': map<SourceKey, SourceRow>) {
    && (forall k :: k in t ==> k in t' && t'[k] == t[k])
    && (forall k :: k in t' && k !in t ==> NewTurn(events, events', k.turn))
  }

  ghost predicate ArtifactsGrow(events: Events, events': Events, t: map<ArtifactKey, ArtifactRow>, t': map<ArtifactKey, ArtifactRow>) {
    && (forall k :: k in t ==> k in t' && t'[k] == t[k])
    && (forall k :: k in t' && k !in t ==> NewTurn(events, events', k.turn))
  }

  ghost predicate CommandsGrow(events: Events, events': Events, t: map<Id, CommandRow>, t': map<Id, CommandRow>) {
    && (forall k :: k in t ==> k in t' && t'[k] == t[k])
    && (forall k :: k in t' && k !in t ==> NewTurn(events, events', t'[k].turn))
  }

  ghost predicate RelaysGrow(events: Events, events': Events, t: Relays, t': Relays) {
    && (forall k :: k in t ==> k in t' && t'[k].turn == t[k].turn && t'[k].content == t[k].content)
    && (forall k :: k in t' && k !in t ==> NewTurn(events, events', t'[k].turn))
  }

  ghost predicate JobsGrow(events: Events, events': Events, t: Jobs, t': Jobs) {
    && (forall k :: k in t ==> k in t' && t'[k].turn == t[k].turn && t'[k].content == t[k].content)
    && (forall k :: k in t' && k !in t ==> NewTurn(events, events', t'[k].turn))
  }

  ghost predicate OutboxGrows(events: Events, events': Events, t: map<Id, PublicRow>, t': map<Id, PublicRow>) {
    && (forall k :: k in t ==> k in t' && t'[k].turn == t[k].turn && t'[k].content == t[k].content)
    && (forall k :: k in t' && k !in t ==> NewTurn(events, events', t'[k].turn))
  }

  ghost predicate Grows(db: Db, db': Db) {
    && EventsGrow(db.events, db'.events)
    && SourcesGrow(db.events, db'.events, db.sources, db'.sources)
    && ArtifactsGrow(db.events, db'.events, db.artifacts, db'.artifacts)
    && CommandsGrow(db.events, db'.events, db.commands, db'.commands)
    && RelaysGrow(db.events, db'.events, db.relays, db'.relays)
    && JobsGrow(db.events, db'.events, db.jobs, db'.jobs)
    && OutboxGrows(db.events, db'.events, db.outbox, db'.outbox)
  }

  lemma GrowsItself(db: Db)
    ensures Grows(db, db)
  {
  }

  lemma GrowsTransitively(db: Db, db': Db, db'': Db)
    requires Grows(db, db') && Grows(db', db'')
    ensures Grows(db, db'')
  {
    EventsGrowTransitively(db.events, db'.events, db''.events);
    SourcesGrowTransitively(db.events, db'.events, db''.events, db.sources, db'.sources, db''.sources);
    ArtifactsGrowTransitively(db.events, db'.events, db''.events, db.artifacts, db'.artifacts, db''.artifacts);
    CommandsGrowTransitively(db.events, db'.events, db''.events, db.commands, db'.commands, db''.commands);
    RelaysGrowTransitively(db.events, db'.events, db''.events, db.relays, db'.relays, db''.relays);
    JobsGrowTransitively(db.events, db'.events, db''.events, db.jobs, db'.jobs, db''.jobs);
    OutboxGrowsTransitively(db.events, db'.events, db''.events, db.outbox, db'.outbox, db''.outbox);
  }

  lemma EventsGrowTransitively(e: Events, e': Events, e'': Events)
    requires EventsGrow(e, e') && EventsGrow(e', e'')
    ensures EventsGrow(e, e'')
  {
  }

  lemma SourcesGrowTransitively(e: Events, e': Events, e'': Events, t: map<SourceKey, SourceRow>,
                                t': map<SourceKey, SourceRow>, t'': map<SourceKey, SourceRow>)
    requires EventsGrow(e, e') && EventsGrow(e', e'') && SourcesGrow(e, e', t, t') && SourcesGrow(e', e'', t', t'')
    ensures SourcesGrow(e, e'', t, t'')
  {
  }

  lemma ArtifactsGrowTransitively(e: Events, e': Events, e'': Events, t: map<ArtifactKey, ArtifactRow>,
                                  t': map<ArtifactKey, ArtifactRow>, t'': map<ArtifactKey, ArtifactRow>)
    requires EventsGrow(e, e') && EventsGrow(e', e'') && ArtifactsGrow(e, e', t, t') && ArtifactsGrow(e', e'', t', t'')
    ensures ArtifactsGrow(e, e'', t, t'')
  {
  }

  lemma CommandsGrowTransitively(e: Events, e': Events, e'': Events, t: map<Id, CommandRow>, t': map<Id, CommandRow>,
                                 t'': map<Id, CommandRow>)
    requires EventsGrow(e, e') && EventsGrow(e', e'') && CommandsGrow(e, e', t, t') && CommandsGrow(e', e'', t', t'')
    ensures CommandsGrow(e, e'', t, t'')
  {
  }

  lemma RelaysGrowTransitively(e: Events, e': Events, e'': Events, t: Relays, t': Relays, t'': Relays)
    requires EventsGrow(e, e') && EventsGrow(e', e'') && RelaysGrow(e, e', t, t') && RelaysGrow(e', e'', t', t'')
    ensures RelaysGrow(e, e'', t, t'')
  {
  }

  lemma JobsGrowTransitively(e: Events, e': Events, e'': Events, t: Jobs, t': Jobs, t'': Jobs)
    requires EventsGrow(e, e') && EventsGrow(e', e'') && JobsGrow(e, e', t, t') && JobsGrow(e', e'', t', t'')
    ensures JobsGrow(e, e'', t, t'')
  {
  }

  lemma OutboxGrowsTransitively(e: Events, e': Events, e'': Events, t: map<Id, PublicRow>, t': map<Id, PublicRow>, t'': map<Id, PublicRow>)
    requires EventsGrow(e, e') && EventsGrow(e', e'') && OutboxGrows(e, e', t, t') && OutboxGrows(e', e'', t', t'')
    ensures OutboxGrows(e, e'', t, t'')
  {
  }

  // ---------------------------------------------------------------- a step

  lemma {:induction false} CommandsGain(t: map<Id, CommandRow>, w: TurnWrite, n: nat, k: Id)
    requires n <= |w.commit.commands| && CommandsInsertable(t, w, n)
    ensures k in t ==> k in WithCommands(t, w, n) && WithCommands(t, w, n)[k] == t[k]
    ensures k in WithCommands(t, w, n) && k !in t ==> WithCommands(t, w, n)[k].turn == w.Key()
  {
    if n > 0 {
      CommandsGain(t, w, n - 1, k);
      assert CommandInsertable(WithCommands(t, w, n - 1), w, n - 1);
    }
  }

  lemma CommitGrowsChildren(db: Db, w: TurnWrite, events': Events)
    requires ChildrenInsertable(db, w) && NewTurn(db.events, events', w.Key())
    ensures SourcesGrow(db.events, events', db.sources, WithSources(db.sources, w, |w.receipt.sources|))
    ensures ArtifactsGrow(db.events, events', db.artifacts, WithArtifacts(db.artifacts, w, |w.artifacts|))
    ensures CommandsGrow(db.events, events', db.commands, WithCommands(db.commands, w, |w.commit.commands|))
    ensures RelaysGrow(db.events, events', db.relays, WithRelays(db.relays, w, |w.relays|))
    ensures JobsGrow(db.events, events', db.jobs, WithJobs(db.jobs, w, |w.jobs|))
  {
    SourcesTable(db.sources, w, |w.receipt.sources|);
    ArtifactsTable(db.artifacts, w, |w.artifacts|);
    forall k { CommandsGain(db.commands, w, |w.commit.commands|, k); }
    forall k { NewRelayFresh(db.relays, w, |w.relays|, k); }
    forall k { NewJobFresh(db.jobs, w, |w.jobs|, k); }
  }

  /** Every public row is moved by the same event; so the table grows. */
  lemma MovesGrowOutbox(db: Db, db': Db, e: Event)
    requires forall p :: RowStep(p, PublicAt(db, p), PublicAt(db', p), e)
    requires e.Advanced? ==> NewTurn(db.events, db'.events, e.w.Key())
    ensures OutboxGrows(db.events, db'.events, db.outbox, db'.outbox)
  {
    forall k | k in db.outbox
      ensures k in db'.outbox && db'.outbox[k].turn == db.outbox[k].turn && db'.outbox[k].content == db.outbox[k].content
    {
      assert RowStep(k, PublicAt(db, k), PublicAt(db', k), e);
    }
    forall k | k in db'.outbox && k !in db.outbox ensures NewTurn(db.events, db'.events, db'.outbox[k].turn) {
      assert RowStep(k, PublicAt(db, k), PublicAt(db', k), e);
    }
  }

  lemma StepGrowsOutbox(db: Db, s: Step, db': Db, e: Event)
    requires QueueInv(db) && StepTo(db, s, db', e)
    requires e.Advanced? ==> NewTurn(db.events, db'.events, e.w.Key())
    ensures OutboxGrows(db.events, db'.events, db.outbox, db'.outbox)
  {
    forall p { StepMovesRow(db, s, db', e, p); }
    MovesGrowOutbox(db, db', e);
  }

  lemma CommitGrows(db: Db, w: TurnWrite, db': Db)
    requires QueueInv(db) && StepTo(db, OnTurn(CommitTurn(w)), db', Advanced(w))
    ensures Grows(db, db')
  {
    OnlyCommitAdvances(db, OnTurn(CommitTurn(w)), db', w);
    CommitGrowsChildren(db, w, db'.events);
    StepGrowsOutbox(db, OnTurn(CommitTurn(w)), db', Advanced(w));
  }

  /** No step of a coordinator but an accepted commit touches a turn's rows. */
  lemma QuietTurnFrame(db: Db, t: TurnStep, db': Db, e: Event)
    requires TurnStepTo(db, t, db', e) && !e.Advanced?
    ensures db' == db.(states := db'.states, authority := db'.authority, claims := db'.claims)
  {
  }

  lemma QuietTurnGrows(db: Db, t: TurnStep, db': Db, e: Event)
    requires TurnStepTo(db, t, db', e) && !e.Advanced?
    ensures Grows(db, db')
  {
    QuietTurnFrame(db, t, db', e);
    FrameGrows(db, db');
  }

  lemma FrameGrows(db: Db, db': Db)
    requires db' == db.(states := db'.states, authority := db'.authority, claims := db'.claims)
    ensures Grows(db, db')
  {
  }

  lemma RelayClaimKept(db: Db, s: RelayStep, db': Db, e: Event, k: Id)
    requires RelayStepTo(db, s, db', e) && s.ClaimRelay?
    ensures k in db'.relays <==> k in db.relays
    ensures k in db.relays ==> db'.relays[k].turn == db.relays[k].turn && db'.relays[k].content == db.relays[k].content
  {
  }

  lemma RelayKept(db: Db, s: RelayStep, db': Db, e: Event, k: Id)
    requires RelayStepTo(db, s, db', e)
    ensures k in db'.relays <==> k in db.relays
    ensures k in db.relays ==> db'.relays[k].turn == db.relays[k].turn && db'.relays[k].content == db.relays[k].content
  {
    if s.ClaimRelay? { RelayClaimKept(db, s, db', e, k); }
  }

  lemma RelayStepGrows(db: Db, s: RelayStep, db': Db, e: Event)
    requires RelayStepTo(db, s, db', e)
    ensures RelaysGrow(db.events, db.events, db.relays, db'.relays)
  {
    forall k { RelayKept(db, s, db', e, k); }
  }

  lemma JobClaimKept(db: Db, s: JobStep, db': Db, e: Event, k: Id)
    requires JobStepTo(db, s, db', e) && s.ClaimJob?
    ensures k in db'.jobs <==> k in db.jobs
    ensures k in db.jobs ==> db'.jobs[k].turn == db.jobs[k].turn && db'.jobs[k].content == db.jobs[k].content
  {
  }

  lemma JobKept(db: Db, s: JobStep, db': Db, e: Event, k: Id)
    requires JobStepTo(db, s, db', e)
    ensures k in db'.jobs <==> k in db.jobs
    ensures k in db.jobs ==> db'.jobs[k].turn == db.jobs[k].turn && db'.jobs[k].content == db.jobs[k].content
  {
    if s.ClaimJob? { JobClaimKept(db, s, db', e, k); }
  }

  lemma JobStepGrows(db: Db, s: JobStep, db': Db, e: Event)
    requires JobStepTo(db, s, db', e)
    ensures JobsGrow(db.events, db.events, db.jobs, db'.jobs)
  {
    forall k { JobKept(db, s, db', e, k); }
  }

  lemma RelayStepOnlyGrows(db: Db, s: RelayStep, db': Db, e: Event)
    requires RelayStepTo(db, s, db', e)
    ensures Grows(db, db')
  {
    RelayStepFrame(db, s, db', e);
    RelayStepGrows(db, s, db', e);
    FrameGrows(db, db'.(relays := db.relays));
  }

  lemma JobStepOnlyGrows(db: Db, s: JobStep, db': Db, e: Event)
    requires JobStepTo(db, s, db', e)
    ensures Grows(db, db')
  {
    JobStepFrame(db, s, db', e);
    JobStepGrows(db, s, db', e);
    FrameGrows(db, db'.(jobs := db.jobs));
  }

  lemma PublicStepGrows(db: Db, s: PublicStep, db': Db, e: Event)
    requires QueueInv(db) && StepTo(db, OnPublic(s), db', e)
    ensures Grows(db, db')
  {
    PublicStepFrame(db, s, db', e);
    StepGrowsOutbox(db, OnPublic(s), db', e);
    FrameGrows(db, db'.(outbox := db.outbox));
  }

  lemma TurnStepGrows(db: Db, s: TurnStep, db': Db, e: Event)
    requires QueueInv(db) && TurnStepTo(db, s, db', e)
    ensures Grows(db, db')
  {
    if e.Advanced? { CommitGrows(db, e.w, db'); } else { QuietTurnGrows(db, s, db', e); }
  }

  lemma StepGrows(db: Db, s: Step, db': Db, e: Event)
    requires QueueInv(db) && StepTo(db, s, db', e)
    ensures Grows(db, db')
  {
    match s
    case OnTurn(t) => TurnStepGrows(db, t, db', e);
    case OnPublic(p) => PublicStepGrows(db, p, db', e);
    case OnRelay(r) => RelayStepOnlyGrows(db, r, db', e);
    case OnJob(j) => JobStepOnlyGrows(db, j, db', e);
  }
}
