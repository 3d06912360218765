/** Replaying a commit: what a committed turn leaves in the tables stays there
    through every later step, so the same call returns the same receipt and
    changes nothing, and any other call on the same turn is refused. */
module Replay {
  import opened Options
  import opened Tables
  import opened TurnWrites
  import opened TurnCommit
  import opened TurnTables
  import opened LeaseQueue
  import opened BoundaryStore
  import opened CommitInvariant
  import opened Steps
  import opened StepInvariant
  import opened RowSteps
  import opened Growth
  import opened Runs

  /** Every child row belongs to a turn that has an event. */
  ghost predicate ForeignKeys(db: Db) {
    Grows(EMPTY_DB, db)
  }

  // --------------------------------------------------- what a commit stores

  predicate SourcesStored(t: map<SourceKey, SourceRow>, w: TurnWrite) {
    && |SourcesOf(t, w.Key())| == |w.receipt.sources|
    && forall i: nat :: i < |w.receipt.sources| ==>
         SourceKey(w.Key(), i) in t && t[SourceKey(w.Key(), i)] == NewSource(w, w.receipt.sources[i])
  }

  predicate CommandsStored(t: map<Id, CommandRow>, w: TurnWrite) {
    && |CommandsOf(t, w.Key())| == |w.commit.commands|
    && forall i: nat :: i < |w.commit.commands| ==>
         w.commit.commands[i].commandId in t
         && t[w.commit.commands[i].commandId] == NewCommand(w, w.commit.commands[i])
  }

  predicate RelaysStored(t: Relays, w: TurnWrite) {
    SameRelays(t, w) && forall i: nat :: i < |w.relays| ==> t[w.relays[i].relayId].turn == w.Key()
  }

  predicate JobsStored(t: Jobs, w: TurnWrite) {
    SameJobContents(t, w) && forall i: nat :: i < |w.jobs| ==> t[w.jobs[i].jobId].turn == w.Key()
  }

  predicate RowsStored(t: map<Id, PublicRow>, w: TurnWrite) {
    SamePublic(t, w) && forall i: nat :: i < |w.rows| ==> t[w.rows[i].rowId].turn == w.Key()
  }

  /** All rows of the turn `w`, and no others of its turn, are in the tables. */
  ghost predicate Stored(db: Db, w: TurnWrite) {
    && w.Key() in db.events && db.events[w.Key()] == NewEvent(w)
    && SourcesStored(db.sources, w) && SameArtifacts(db.artifacts, w) && CommandsStored(db.commands, w)
    && RelaysStored(db.relays, w) && JobsStored(db.jobs, w) && RowsStored(db.outbox, w)
  }

  lemma OneMoreSource(t: map<SourceKey, SourceRow>, k: SourceKey, row: SourceRow)
    requires k !in t
    ensures |SourcesOf(t[k := row], k.turn)| == |SourcesOf(t, k.turn)| + 1
  {
    assert SourcesOf(t[k := row], k.turn) == SourcesOf(t, k.turn) + {k};
  }

  lemma {:induction false} SourcesAreStored(t: map<SourceKey, SourceRow>, w: TurnWrite, n: nat)
    requires n <= |w.receipt.sources| && SourcesInsertable(t, w, n) && SourcesOf(t, w.Key()) == {}
    ensures |SourcesOf(WithSources(t, w, n), w.Key())| == n
  {
    if n == 0 { return; }
    SourcesAreStored(t, w, n - 1);
    var t1 := WithSources(t, w, n - 1);
    assert SourceInsertable(t1, w, n - 1);
    OneMoreSource(t1, SourceKey(w.Key(), n - 1), NewSource(w, w.receipt.sources[n - 1]));
  }

  lemma {:induction false} ArtifactsAreStored(t: map<ArtifactKey, ArtifactRow>, w: TurnWrite, n: nat)
    requires n <= |w.artifacts| && ArtifactsInsertable(t, w, n) && ArtifactsOf(t, w.Key()) == {}
    ensures |ArtifactsOf(WithArtifacts(t, w, n), w.Key())| == n
  {
    if n == 0 { return; }
    ArtifactsAreStored(t, w, n - 1);
    var t1 := WithArtifacts(t, w, n - 1);
    assert ArtifactInsertable(t1, w, n - 1);
    OneMoreArtifact(t1, ArtifactKey(w.Key(), n - 1), ArtifactRow(w.artifacts[n - 1], w.ReceiptHash()));
  }

  lemma OneMoreArtifact(t: map<ArtifactKey, ArtifactRow>, k: ArtifactKey, row: ArtifactRow)
    requires k !in t
    ensures |ArtifactsOf(t[k := row], k.turn)| == |ArtifactsOf(t, k.turn)| + 1
  {
    assert ArtifactsOf(t[k := row], k.turn) == ArtifactsOf(t, k.turn) + {k};
  }

  lemma {:induction false} CommandsAreStored(t: map<Id, CommandRow>, w: TurnWrite, n: nat)
    requires n <= |w.commit.commands| && CommandsInsertable(t, w, n) && CommandsOf(t, w.Key()) == {}
    ensures |CommandsOf(WithCommands(t, w, n), w.Key())| == n
  {
    if n == 0 { return; }
    CommandsAreStored(t, w, n - 1);
    var t1 := WithCommands(t, w, n - 1);
    assert CommandInsertable(t1, w, n - 1);
    assert CommandsOf(WithCommands(t, w, n), w.Key()) == CommandsOf(t1, w.Key()) + {w.commit.commands[n - 1].commandId};
  }

  lemma {:induction false} RelaysAreStored(t: Relays, w: TurnWrite, n: nat)
    requires n <= |w.relays| && RelaysInsertable(t, w, n) && RelaysOf(t, w.Key()) == {}
    ensures |RelaysOf(WithRelays(t, w, n), w.Key())| == n
  {
    if n == 0 { return; }
    RelaysAreStored(t, w, n - 1);
    var t1 := WithRelays(t, w, n - 1);
    assert RelayInsertable(t1, w, n - 1);
    assert RelaysOf(WithRelays(t, w, n), w.Key()) == RelaysOf(t1, w.Key()) + {w.relays[n - 1].relayId};
  }

  lemma {:induction false} JobsAreStored(t: Jobs, w: TurnWrite, n: nat)
    requires n <= |w.jobs| && JobsInsertable(t, w, n) && JobsOf(t, w.Key()) == {}
    ensures |JobsOf(WithJobs(t, w, n), w.Key())| == n
  {
    if n == 0 { return; }
    JobsAreStored(t, w, n - 1);
    var t1 := WithJobs(t, w, n - 1);
    assert JobInsertable(t1, w, n - 1);
    assert JobsOf(WithJobs(t, w, n), w.Key()) == JobsOf(t1, w.Key()) + {w.jobs[n - 1].jobId};
  }

  lemma {:induction false} RowsAreStored(t: map<Id, PublicRow>, w: TurnWrite, n: nat)
    requires n <= |w.rows| && OutboxInsertable(t, w, n) && RowsOf(t, w.Key()) == {}
    ensures |RowsOf(WithPublic(t, w, n), w.Key())| == n
  {
    if n == 0 { return; }
    RowsAreStored(t, w, n - 1);
    var t1 := WithPublic(t, w, n - 1);
    assert PublicInsertable(t1, w, n - 1);
    assert RowsOf(WithPublic(t, w, n), w.Key()) == RowsOf(t1, w.Key()) + {w.rows[n - 1].rowId};
  }

  /** A turn without an event has no rows. */
  lemma NoRowsBeforeEvent(db: Db, key: TurnKey)
    requires ForeignKeys(db) && key !in db.events
    ensures SourcesOf(db.sources, key) == {} && ArtifactsOf(db.artifacts, key) == {}
    ensures CommandsOf(db.commands, key) == {} && RelaysOf(db.relays, key) == {}
    ensures JobsOf(db.jobs, key) == {} && RowsOf(db.outbox, key) == {}
  {
  }

  lemma SourceRowsStored(t: map<SourceKey, SourceRow>, w: TurnWrite)
    requires SourcesOf(t, w.Key()) == {} && SourcesInsertable(t, w, |w.receipt.sources|)
    ensures SourcesStored(WithSources(t, w, |w.receipt.sources|), w)
  {
    SourcesAreStored(t, w, |w.receipt.sources|);
    var t' := WithSources(t, w, |w.receipt.sources|);
    forall i: nat | i < |w.receipt.sources|
      ensures SourceKey(w.Key(), i) in t' && t'[SourceKey(w.Key(), i)] == NewSource(w, w.receipt.sources[i])
    {
      SourceRowAt(t, w, |w.receipt.sources|, i);
    }
  }

  lemma ArtifactRowsStored(t: map<ArtifactKey, ArtifactRow>, w: TurnWrite)
    requires ArtifactsOf(t, w.Key()) == {} && ArtifactsInsertable(t, w, |w.artifacts|)
    ensures SameArtifacts(WithArtifacts(t, w, |w.artifacts|), w)
  {
    ArtifactsAreStored(t, w, |w.artifacts|);
    var t' := WithArtifacts(t, w, |w.artifacts|);
    forall i: nat | i < |w.artifacts|
      ensures ArtifactKey(w.Key(), i) in t' && t'[ArtifactKey(w.Key(), i)] == ArtifactRow(w.artifacts[i], w.ReceiptHash())
    {
      ArtifactRowAt(t, w, |w.artifacts|, i);
    }
  }

  lemma CommandRowsStored(t: map<Id, CommandRow>, w: TurnWrite)
    requires CommandsOf(t, w.Key()) == {} && CommandsInsertable(t, w, |w.commit.commands|)
    ensures CommandsStored(WithCommands(t, w, |w.commit.commands|), w)
  {
    CommandsAreStored(t, w, |w.commit.commands|);
    CommandsTable(t, w, |w.commit.commands|);
  }

  lemma RelayRowsStored(t: Relays, w: TurnWrite)
    requires RelaysOf(t, w.Key()) == {} && RelaysInsertable(t, w, |w.relays|)
    ensures RelaysStored(WithRelays(t, w, |w.relays|), w)
  {
    RelaysAreStored(t, w, |w.relays|);
    RelaysTable(t, w, |w.relays|);
  }

  lemma JobRowsStored(t: Jobs, w: TurnWrite)
    requires JobsOf(t, w.Key()) == {} && JobsInsertable(t, w, |w.jobs|)
    ensures var t' := WithJobs(t, w, |w.jobs|); JobsStored(t', w) && JobsAsWritten(t', w)
  {
    JobsAreStored(t, w, |w.jobs|);
    JobsTable(t, w, |w.jobs|);
  }

  /** No job of the turn was claimed yet, and each has the target it was written with. */
  predicate JobsAsWritten(t: Jobs, w: TurnWrite) {
    forall i: nat :: i < |w.jobs| ==> w.jobs[i].jobId in t && t[w.jobs[i].jobId] == NewJob(w, w.jobs[i])
  }

  lemma OutboxRowsStored(t: map<Id, PublicRow>, w: TurnWrite)
    requires RowsOf(t, w.Key()) == {} && OutboxInsertable(t, w, |w.rows|)
    ensures RowsStored(WithPublic(t, w, |w.rows|), w)
  {
    RowsAreStored(t, w, |w.rows|);
    forall p | p in t ensures t[p].turn != w.Key() { assert p !in RowsOf(t, w.Key()); }
    AppendedGainsRows(t, w);
  }

  lemma CancelKeepsTurns(outbox: map<Id, PublicRow>, w: TurnWrite, key: TurnKey)
    ensures RowsOf(CancelTurns(outbox, w.Lead(), w.superseded), key) == RowsOf(outbox, key)
  {
  }

  lemma CommitStores(db: Db, w: TurnWrite)
    requires ForeignKeys(db) && Accepts(db, w)
    ensures Stored(Committed(db, w), w) && JobsAsWritten(Committed(db, w).jobs, w)
  {
    NoRowsBeforeEvent(db, w.Key());
    SourceRowsStored(db.sources, w);
    ArtifactRowsStored(db.artifacts, w);
    CommandRowsStored(db.commands, w);
    RelayRowsStored(db.relays, w);
    JobRowsStored(db.jobs, w);
    CancelKeepsTurns(db.outbox, w, w.Key());
    OutboxRowsStored(CancelTurns(db.outbox, w.Lead(), w.superseded), w);
  }

  // ------------------------------------------------------- it stays stored

  lemma SetsOfTurnKept(db: Db, db': Db, key: TurnKey)
    requires Grows(db, db') && key in db.events
    ensures SourcesOf(db'.sources, key) == SourcesOf(db.sources, key)
    ensures ArtifactsOf(db'.artifacts, key) == ArtifactsOf(db.artifacts, key)
    ensures CommandsOf(db'.commands, key) == CommandsOf(db.commands, key)
  {
  }

  lemma QueuesOfTurnKept(db: Db, db': Db, key: TurnKey)
    requires Grows(db, db') && key in db.events
    ensures RelaysOf(db'.relays, key) == RelaysOf(db.relays, key)
    ensures JobsOf(db'.jobs, key) == JobsOf(db.jobs, key)
    ensures RowsOf(db'.outbox, key) == RowsOf(db.outbox, key)
  {
  }

  lemma StaysStored(db: Db, db': Db, w: TurnWrite)
    requires Grows(db, db') && Stored(db, w)
    ensures Stored(db', w)
  {
    SetsOfTurnKept(db, db', w.Key());
    QueuesOfTurnKept(db, db', w.Key());
  }

  lemma {:induction false} RunGrows(ws: seq<World>, steps: seq<Step>, i: nat, j: nat)
    requires Run(ws, steps) && i <= j < |ws|
    ensures Grows(ws[i].db, ws[j].db)
  {
    if i == j {
      GrowsItself(ws[i].db);
    } else {
      RunGrows(ws, steps, i, j - 1);
      RunInv(ws, steps, j - 1);
      assert Next(ws[j - 1], steps[j - 1], ws[j]);
      StepGrows(ws[j - 1].db, steps[j - 1], ws[j].db, ws[j].log[|ws[j - 1].log|]);
      GrowsTransitively(ws[i].db, ws[j - 1].db, ws[j].db);
    }
  }

  /** Whatever happens later, the tables still hold every committed turn exactly. */
  lemma CommittedTurnStays(ws: seq<World>, steps: seq<Step>, i: nat, j: nat, w: TurnWrite)
    requires Run(ws, steps) && i < j < |ws| && Happens(ws, i, Advanced(w))
    ensures Stored(ws[j].db, w) && PreCheck(w).None? && WritesValid(w)
  {
    RunGrows(ws, steps, 0, i);
    RunTakesStep(ws, steps, i, Advanced(w));
    AdvanceStores(ws[i].db, steps[i], ws[i + 1].db, w);
    RunGrows(ws, steps, i + 1, j);
    StaysStored(ws[i + 1].db, ws[j].db, w);
  }

  lemma AdvanceStores(db: Db, s: Step, db': Db, w: TurnWrite)
    requires ForeignKeys(db) && StepTo(db, s, db', Advanced(w))
    ensures Stored(db', w) && JobsAsWritten(db'.jobs, w) && PreCheck(w).None? && WritesValid(w)
  {
    OnlyCommitAdvances(db, s, db', w);
    CommitStores(db, w);
  }

  // ---------------------------------------------------------------- replay

  lemma SameRelayWrites(t: Relays, w: TurnWrite, v: TurnWrite)
    requires SameRelays(t, w) && SameRelays(t, v) && w.Key() == v.Key()
    requires RelayRows(w.relays) == RelayRows(v.relays)
    ensures w.relays == v.relays
  {
    assert |w.relays| == |RelayRows(w.relays)| == |v.relays|;
    forall i: nat | i < |w.relays| ensures w.relays[i] == v.relays[i] {
      assert RelayRows(w.relays)[i] == RelayRows(v.relays)[i];
    }
  }

  /** The jobs of the write, with the targets the table holds now. */
  function StoredJobs(t: Jobs, w: TurnWrite): seq<JobWrite> {
    seq(|w.jobs|, i requires 0 <= i < |w.jobs| =>
      if w.jobs[i].jobId in t then w.jobs[i].(target := t[w.jobs[i].jobId].target) else w.jobs[i])
  }

  lemma SameJobWrites(t: Jobs, w: TurnWrite, v: TurnWrite)
    requires SameJobContents(t, w) && SameJobContents(t, v) && SameTargets(t, v)
    requires JobRows(w.jobs) == JobRows(v.jobs)
    ensures v.jobs == StoredJobs(t, w)
  {
    assert |w.jobs| == |JobRows(w.jobs)| == |v.jobs|;
    forall i: nat | i < |w.jobs| ensures v.jobs[i] == StoredJobs(t, w)[i] {
      assert JobRows(w.jobs)[i] == JobRows(v.jobs)[i];
    }
  }

  lemma SamePublicWrites(t: map<Id, PublicRow>, w: TurnWrite, v: TurnWrite)
    requires SamePublic(t, w) && SamePublic(t, v)
    requires ChunkRows(w.rows) == ChunkRows(v.rows)
    ensures w.rows == v.rows
  {
    assert |w.rows| == |ChunkRows(w.rows)| == |v.rows|;
    forall i: nat | i < |w.rows| ensures w.rows[i] == v.rows[i] {
      assert ChunkRows(w.rows)[i] == ChunkRows(v.rows)[i];
      assert ContentOf(w, i) == ContentOf(v, i);
    }
  }

  lemma SameArtifactWrites(t: map<ArtifactKey, ArtifactRow>, w: TurnWrite, v: TurnWrite)
    requires SameArtifacts(t, w) && SameArtifacts(t, v) && w.Key() == v.Key()
    ensures w.artifacts == v.artifacts
  {
    forall i: nat | i < |w.artifacts| ensures w.artifacts[i] == v.artifacts[i] {
      assert t[ArtifactKey(w.Key(), i)].artifact == v.artifacts[i];
    }
  }

  /** The only writes that replay a stored turn: the one that made it, up to the
      fence token, the superseded turns and the job targets as they stand. */
  function AsStored(db: Db, w: TurnWrite, token: nat, superseded: seq<Id>): TurnWrite {
    w.(token := token, superseded := superseded, jobs := StoredJobs(db.jobs, w))
  }

  lemma MatchingWriteIsStored(db: Db, w: TurnWrite, v: TurnWrite)
    requires Stored(db, w) && PreCheck(w).None? && PreCheck(v).None? && v.Key() == w.Key() && ReplayMatches(db, v)
    ensures v == AsStored(db, w, v.token, v.superseded)
  {
    assert v.receipt == w.receipt && v.commit == w.commit;
    SameArtifactWrites(db.artifacts, w, v);
    SameRelayWrites(db.relays, w, v);
    SameJobWrites(db.jobs, w, v);
    SamePublicWrites(db.outbox, w, v);
  }

  lemma StoredWriteMatches(db: Db, w: TurnWrite, token: nat, superseded: seq<Id>)
    requires Stored(db, w)
    ensures AsStored(db, w, token, superseded).Key() in db.events
    ensures ReplayMatches(db, AsStored(db, w, token, superseded))
  {
    var v := AsStored(db, w, token, superseded);
    forall i: nat | i < |v.rows| ensures ContentOf(v, i) == ContentOf(w, i) {}
    forall i: nat | i < |v.jobs| ensures NewJob(v, v.jobs[i]).content == NewJob(w, w.jobs[i]).content {}
  }

  /** After a turn was committed, and whatever ran since, a call on the same turn
      that passes the argument checks succeeds exactly when it is that turn's own
      write; it then changes nothing (`AfterCommit` is the same store). */
  lemma ReplayIsIdempotent(ws: seq<World>, steps: seq<Step>, i: nat, j: nat, w: TurnWrite, v: TurnWrite)
    requires Run(ws, steps) && i < j < |ws| && Happens(ws, i, Advanced(w))
    requires v.Key() == w.Key() && PreCheck(v).None?
    ensures v.Key() in ws[j].db.events
    ensures Succeeds(ws[j].db, v) <==> v == AsStored(ws[j].db, w, v.token, v.superseded)
    ensures Succeeds(ws[j].db, v) ==> AfterCommit(ws[j].db, v) == ws[j].db && v.receipt == w.receipt
    ensures !Succeeds(ws[j].db, v) ==>
              VersionsUnique(ws[j].db.events) && Refusal(ws[j].db, v) == Some(IdentityConflict)
  {
    CommittedTurnStays(ws, steps, i, j, w);
    if ReplayMatches(ws[j].db, v) { MatchingWriteIsStored(ws[j].db, w, v); }
    if v == AsStored(ws[j].db, w, v.token, v.superseded) { StoredWriteMatches(ws[j].db, w, v.token, v.superseded); }
    RunInv(ws, steps, j);
  }

  // ------------------------------------------------- rewritten job targets

  /** Claiming a job replaces its target by the operation id of its artifact. */
  predicate TargetStep(r: JobRow, r': JobRow) {
    && HandoffOperation(r') == HandoffOperation(r) && r.queue.claimCount <= r'.queue.claimCount
    && r'.target == if r'.queue.claimCount == r.queue.claimCount then r.target else HandoffOperation(r)
  }

  lemma JobStepKeepsTarget(db: Db, s: JobStep, db': Db, e: Event, p: Id)
    requires JobStepTo(db, s, db', e) && p in db.jobs
    ensures p in db'.jobs && TargetStep(db.jobs[p], db'.jobs[p])
  {
  }

  lemma TurnStepKeepsJob(db: Db, s: TurnStep, db': Db, e: Event, p: Id)
    requires TurnStepTo(db, s, db', e) && p in db.jobs
    ensures p in db'.jobs && db'.jobs[p] == db.jobs[p]
  {
    if e.Advanced? { NewJobFresh(db.jobs, e.w, |e.w.jobs|, p); }
  }

  lemma StepKeepsTarget(db: Db, s: Step, db': Db, e: Event, p: Id)
    requires StepTo(db, s, db', e) && p in db.jobs
    ensures p in db'.jobs && TargetStep(db.jobs[p], db'.jobs[p])
  {
    match s
    case OnTurn(t) => TurnStepKeepsJob(db, t, db', e, p);
    case OnPublic(a) => PublicStepFrame(db, a, db', e);
    case OnRelay(r) => RelayStepFrame(db, r, db', e);
    case OnJob(j) => JobStepKeepsTarget(db, j, db', e, p);
  }

  predicate TargetKnown(t: Jobs, w: TurnWrite, k: nat)
    requires k < |w.jobs|
  {
    && w.jobs[k].jobId in t
    && var r := t[w.jobs[k].jobId];
       && HandoffOperation(r) == OperationDigest(true, w.jobs[k].artifactHash, w.ReceiptHash())
       && r.target == if r.queue.claimCount == 0 then w.jobs[k].target else HandoffOperation(r)
  }

  lemma TargetStaysKnown(t: Jobs, t': Jobs, w: TurnWrite, k: nat)
    requires k < |w.jobs| && TargetKnown(t, w, k)
    requires w.jobs[k].jobId in t' && TargetStep(t[w.jobs[k].jobId], t'[w.jobs[k].jobId])
    ensures TargetKnown(t', w, k)
  {
  }

  lemma StepKeepsTargetKnown(ws: seq<World>, steps: seq<Step>, j: nat, w: TurnWrite, k: nat)
    requires Run(ws, steps) && j < |steps| && k < |w.jobs| && TargetKnown(ws[j].db.jobs, w, k)
    ensures TargetKnown(ws[j + 1].db.jobs, w, k)
  {
    assert Next(ws[j], steps[j], ws[j + 1]);
    StepKeepsTarget(ws[j].db, steps[j], ws[j + 1].db, ws[j + 1].log[|ws[j].log|], w.jobs[k].jobId);
    TargetStaysKnown(ws[j].db.jobs, ws[j + 1].db.jobs, w, k);
  }

  lemma CommittedTargetKnown(ws: seq<World>, steps: seq<Step>, i: nat, w: TurnWrite, k: nat)
    requires Run(ws, steps) && i + 1 < |ws| && Happens(ws, i, Advanced(w)) && k < |w.jobs|
    ensures TargetKnown(ws[i + 1].db.jobs, w, k)
  {
    RunGrows(ws, steps, 0, i);
    RunTakesStep(ws, steps, i, Advanced(w));
    AdvanceStores(ws[i].db, steps[i], ws[i + 1].db, w);
  }

  /** A job's target is the one written until its first claim, and its operation
      id from then on. */
  lemma {:induction false} TargetsKnown(ws: seq<World>, steps: seq<Step>, i: nat, j: nat, w: TurnWrite, k: nat)
    requires Run(ws, steps) && i < j < |ws| && Happens(ws, i, Advanced(w)) && k < |w.jobs|
    ensures TargetKnown(ws[j].db.jobs, w, k)
  {
    if j == i + 1 {
      CommittedTargetKnown(ws, steps, i, w, k);
    } else {
      TargetsKnown(ws, steps, i, j - 1, w, k);
      StepKeepsTargetKnown(ws, steps, j - 1, w, k);
    }
  }

  /** The original call itself replays exactly as long as no job of the turn has
      been claimed, or was written with its operation id from the start. */
  lemma OriginalCallReplays(ws: seq<World>, steps: seq<Step>, i: nat, j: nat, w: TurnWrite)
    requires Run(ws, steps) && i < j < |ws| && Happens(ws, i, Advanced(w))
    ensures Succeeds(ws[j].db, w) <==>
              forall k: nat :: k < |w.jobs| ==>
                w.jobs[k].jobId in ws[j].db.jobs
                && (ws[j].db.jobs[w.jobs[k].jobId].queue.claimCount == 0
                    || w.jobs[k].target == OperationDigest(true, w.jobs[k].artifactHash, w.ReceiptHash()))
  {
    CommittedTurnStays(ws, steps, i, j, w);
    var t := ws[j].db.jobs;
    forall k: nat | k < |w.jobs|
      ensures w.jobs[k].jobId in t
      ensures t[w.jobs[k].jobId].target == w.jobs[k].target <==>
                t[w.jobs[k].jobId].queue.claimCount == 0
                || w.jobs[k].target == OperationDigest(true, w.jobs[k].artifactHash, w.ReceiptHash())
    {
      TargetsKnown(ws, steps, i, j, w, k);
    }
  }
}
