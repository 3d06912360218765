/** Which reachable stores the scan accepts: exactly those whose commits carried
    the relay and job hashes that the scan recomputes. */
module ReachableScan {
  import opened Options
  import opened Tables
  import opened Ordering
  import opened TurnWrites
  import opened TurnCommit
  import opened QueueInvariant
  import opened LeaseQueue
  import opened History
  import opened Steps
  import opened StepInvariant
  import opened Runs
  import opened Replay
  import opened Scan
  import opened ScanLoops

  /** The write's relay and job hashes are those the scan will recompute. */
  predicate HashesScan(w: TurnWrite) {
    && (forall i: nat :: i < |w.relays| ==> RelayScanHash(w.relays[i].bundle) == Some(w.relays[i].bundleHash))
    && (forall i: nat :: i < |w.jobs| ==> JobScanHash(w.jobs[i].bundle) == Some(w.jobs[i].artifactHash))
  }

  lemma StoredSourcesMatch(t: map<SourceKey, SourceRow>, w: TurnWrite)
    requires SourcesStored(t, w)
    ensures SourcesMatch(t, w.Key(), w.receipt)
  {
    var listed := seq(|w.receipt.sources|, i requires 0 <= i < |w.receipt.sources| => SourceKey(w.Key(), i));
    forall i | 0 <= i < |listed| ensures listed[i] in SourcesOf(t, w.Key()) {}
    CoversByCount(SourcesOf(t, w.Key()), listed);
  }

  lemma StoredArtifactsCover(t: map<ArtifactKey, ArtifactRow>, w: TurnWrite)
    requires SameArtifacts(t, w)
    ensures AllArtifacts(t, w.Key(), |w.artifacts|)
    ensures ArtifactSeq(t, w.Key(), |w.artifacts|) == w.artifacts
  {
    var listed := seq(|w.artifacts|, i requires 0 <= i < |w.artifacts| => ArtifactKey(w.Key(), i));
    forall i | 0 <= i < |listed| ensures listed[i] in ArtifactsOf(t, w.Key()) {}
    CoversByCount(ArtifactsOf(t, w.Key()), listed);
    forall k | k in t && k.turn == w.Key() ensures k.index < |w.artifacts| { assert k in ArtifactsOf(t, w.Key()); }
  }

  /** The graph check of the write is the one the scan repeats. */
  lemma WrittenGraphMatches(w: TurnWrite)
    requires ReceiptBinds(w)
    ensures GraphMatches(w.artifacts, w.receipt)
  {
    assert ReceiptChunks(w.receipt) == ChunksOf(w.rows) by {
      assert w.receipt.chunks == ChunkRows(w.rows);
      assert |ReceiptChunks(w.receipt)| == |ChunksOf(w.rows)|;
      forall i | 0 <= i < |w.rows| ensures ReceiptChunks(w.receipt)[i] == ChunksOf(w.rows)[i] {}
    }
    assert GraphOk(w.receipt, w.artifacts, ChunksOf(w.rows), Some(w.commit));
  }

  lemma StoredArtifactsMatch(t: map<ArtifactKey, ArtifactRow>, w: TurnWrite)
    requires SameArtifacts(t, w) && ReceiptBinds(w) && WritesValid(w)
    ensures ArtifactsMatch(t, w.Key(), w.receipt)
  {
    StoredArtifactsCover(t, w);
    WrittenGraphMatches(w);
    OnlyLength(t, w.Key(), |w.artifacts|);
    forall k | k in ArtifactsOf(t, w.Key()) ensures ArtifactOk(t[k], w.receipt) {
      StoredArtifactOk(t, w, k.index);
      assert k == ArtifactKey(w.Key(), k.index);
    }
  }

  lemma StoredArtifactOk(t: map<ArtifactKey, ArtifactRow>, w: TurnWrite, i: nat)
    requires SameArtifacts(t, w) && ReceiptBinds(w) && WritesValid(w) && i < |w.artifacts|
    ensures ArtifactKey(w.Key(), i) in t && ArtifactOk(t[ArtifactKey(w.Key(), i)], w.receipt)
  {
    assert GraphOk(w.receipt, w.artifacts, ChunksOf(w.rows), Some(w.commit));
    assert w.artifacts[i].hash == ArtifactDigest(w.artifacts[i].kind, w.artifacts[i].payload);
  }

  lemma StoredCommandsMatch(t: map<Id, CommandRow>, w: TurnWrite)
    requires CommandsStored(t, w) && ReceiptBinds(w) && ReceiptValid(w.receipt)
    ensures CommandsMatch(t, w.Key(), w.receipt)
  {
    var listed := Ids(w.receipt.commandRows);
    forall i: nat | i < |w.receipt.commandRows|
      ensures listed[i] in CommandsOf(t, w.Key()) && CommandMatches(t, w.Key(), w.receipt, i)
    {
      assert w.receipt.commandRows[i] == CommandRowsOf(w.commit.commands)[i];
      assert t[w.commit.commands[i].commandId] == NewCommand(w, w.commit.commands[i]);
    }
    CoversByCount(CommandsOf(t, w.Key()), listed);
  }

  lemma StoredRelaysMatch(t: Relays, w: TurnWrite)
    requires RelaysStored(t, w) && ReceiptBinds(w) && ReceiptValid(w.receipt)
    ensures RelaysMatch(t, w.Key(), w.receipt) <==>
              forall i: nat :: i < |w.relays| ==> RelayScanHash(w.relays[i].bundle) == Some(w.relays[i].bundleHash)
  {
    var listed := Ids(w.receipt.relayRows);
    assert |listed| == |w.receipt.relayRows| == |w.relays|;
    forall i: nat | i < |w.relays|
      ensures listed[i] in RelaysOf(t, w.Key())
      ensures RelayMatches(t, w.Key(), w.receipt, i) <==>
                RelayScanHash(w.relays[i].bundle) == Some(w.relays[i].bundleHash)
    {
      assert w.receipt.relayRows[i] == RelayRows(w.relays)[i];
      assert t[w.relays[i].relayId].content == NewRelay(w, w.relays[i]).content;
    }
    CoversByCount(RelaysOf(t, w.Key()), listed);
  }

  lemma StoredJobsMatch(t: Jobs, w: TurnWrite)
    requires JobsStored(t, w) && ReceiptBinds(w) && ReceiptValid(w.receipt)
    ensures JobsMatch(t, w.Key(), w.receipt) <==>
              forall i: nat :: i < |w.jobs| ==> JobScanHash(w.jobs[i].bundle) == Some(w.jobs[i].artifactHash)
  {
    var listed := Ids(w.receipt.jobRows);
    assert |listed| == |w.receipt.jobRows| == |w.jobs|;
    forall i: nat | i < |w.jobs|
      ensures listed[i] in JobsOf(t, w.Key())
      ensures JobMatches(t, w.Key(), w.receipt, i) <==>
                JobScanHash(w.jobs[i].bundle) == Some(w.jobs[i].artifactHash)
    {
      assert w.receipt.jobRows[i] == JobRows(w.jobs)[i];
      assert t[w.jobs[i].jobId].content == NewJob(w, w.jobs[i]).content;
    }
    CoversByCount(JobsOf(t, w.Key()), listed);
  }

  lemma LinkedAllocationBound(db: Db, p: Id)
    requires TwoTables(db) && p in db.outbox
    ensures AllocationBound(db.authority, p, db.outbox[p].content)
  {
    assert Linked(db, p);
  }

  /** The receipt lists the i-th row as its i-th chunk. */
  predicate ChunkListed(w: TurnWrite, i: nat) {
    && i < |w.rows| == |w.receipt.chunks|
    && w.receipt.chunks[i] == (w.rows[i].rowId, i, w.rows[i].chunk, ChunkDigest(w.rows[i].chunk))
    && w.rows[i].chunk.ordinal == i && w.rows[i].terms.capabilityDigest == w.receipt.capabilityDigest
    && w.rows[i].effectiveDigest == w.receipt.effectiveDigest
  }

  lemma ReceiptChunkAt(w: TurnWrite, i: nat)
    requires ReceiptBinds(w) && ReceiptValid(w.receipt) && i < |w.rows|
    ensures ChunkListed(w, i)
  {
    assert w.receipt.chunks == ChunkRows(w.rows);
    assert w.receipt.chunks[i].1 == i;
  }

  lemma StoredRowMatches(auth: map<AuthKey, AuthRow>, w: TurnWrite, i: nat)
    requires ChunkListed(w, i) && (i > 0 ==> ChunkListed(w, i - 1))
    requires AllocationBound(auth, w.rows[i].rowId, ContentOf(w, i))
    ensures RowMatches(auth, w.rows[i].rowId, ContentOf(w, i), w.receipt, i)
  {
  }

  /** The i-th stored row is the receipt's i-th chunk. */
  predicate ChunkStored(db: Db, w: TurnWrite, i: nat) {
    && i < |w.rows| == |w.receipt.chunks| && w.receipt.chunks[i].0 == w.rows[i].rowId
    && w.rows[i].rowId in RowsOf(db.outbox, w.Key())
    && RowMatches(db.authority, w.rows[i].rowId, db.outbox[w.rows[i].rowId].content, w.receipt, i)
  }

  lemma StoredChunk(db: Db, w: TurnWrite, i: nat)
    requires TwoTables(db) && RowsStored(db.outbox, w)
    requires ChunkListed(w, i) && (i > 0 ==> ChunkListed(w, i - 1))
    ensures ChunkStored(db, w, i)
  {
    LinkedAllocationBound(db, w.rows[i].rowId);
    StoredRowMatches(db.authority, w, i);
  }

  lemma ChunksListed(w: TurnWrite)
    requires ReceiptBinds(w) && ReceiptValid(w.receipt)
    ensures |w.rows| == |w.receipt.chunks|
    ensures forall i: nat {:trigger ChunkListed(w, i)} :: i < |w.rows| ==> ChunkListed(w, i)
  {
    assert |w.receipt.chunks| == |ChunkRows(w.rows)|;
    forall i: nat | i < |w.rows| ensures ChunkListed(w, i) { ReceiptChunkAt(w, i); }
  }

  lemma StoredPublicMatch(db: Db, w: TurnWrite)
    requires TwoTables(db) && RowsStored(db.outbox, w) && ReceiptBinds(w) && ReceiptValid(w.receipt)
    ensures PublicMatch(db.authority, db.outbox, w.Key(), w.receipt)
  {
    ChunksListed(w);
    ChunksStored(db, w);
    StoredChunksMatch(db, w);
  }

  lemma ChunksStored(db: Db, w: TurnWrite)
    requires TwoTables(db) && RowsStored(db.outbox, w)
    requires forall i: nat {:trigger ChunkListed(w, i)} :: i < |w.rows| ==> ChunkListed(w, i)
    ensures forall i: nat {:trigger ChunkStored(db, w, i)} :: i < |w.rows| ==> ChunkStored(db, w, i)
  {
    forall i: nat | i < |w.rows| ensures ChunkStored(db, w, i) {
      assert ChunkListed(w, i) && (i > 0 ==> ChunkListed(w, i - 1));
      StoredChunk(db, w, i);
    }
  }

  lemma StoredChunksMatch(db: Db, w: TurnWrite)
    requires |w.rows| == |w.receipt.chunks| && RowsStored(db.outbox, w) && ReceiptValid(w.receipt)
    requires forall i: nat {:trigger ChunkStored(db, w, i)} :: i < |w.rows| ==> ChunkStored(db, w, i)
    ensures PublicMatch(db.authority, db.outbox, w.Key(), w.receipt)
  {
    forall i: nat | i < |w.receipt.chunks|
      ensures w.receipt.chunks[i].0 == ChunkIds(w.receipt)[i] && ChunkIds(w.receipt)[i] in RowsOf(db.outbox, w.Key())
      ensures RowMatches(db.authority, w.receipt.chunks[i].0, db.outbox[w.receipt.chunks[i].0].content, w.receipt, i)
    {
      assert ChunkStored(db, w, i);
    }
    CoversByCount(RowsOf(db.outbox, w.Key()), ChunkIds(w.receipt));
    forall p | p in RowsOf(db.outbox, w.Key()) ensures exists i: nat :: IsChunk(w.receipt, i, p) {
      var i: nat :| i < |ChunkIds(w.receipt)| && ChunkIds(w.receipt)[i] == p;
      assert IsChunk(w.receipt, i, p);
    }
  }

  /** A committed turn matches its receipt exactly when its relay and job hashes scan. */
  lemma StoredTurnMatches(db: Db, w: TurnWrite)
    requires TwoTables(db) && Stored(db, w) && WritesValid(w) && ReceiptBinds(w)
    ensures TurnMatches(db, w.Key(), w.receipt) <==> HashesScan(w)
  {
    StoredSourcesMatch(db.sources, w);
    StoredArtifactsMatch(db.artifacts, w);
    StoredCommandsMatch(db.commands, w);
    StoredRelaysMatch(db.relays, w);
    StoredJobsMatch(db.jobs, w);
    StoredPublicMatch(db, w);
  }

  /** Every event was written by a commit of the run. */
  lemma {:induction false} EventHasCommit(ws: seq<World>, steps: seq<Step>, j: nat, key: TurnKey)
    returns (i: nat, w: TurnWrite)
    requires Run(ws, steps) && j < |ws| && key in ws[j].db.events
    ensures i < j && Happens(ws, i, Advanced(w)) && w.Key() == key
  {
    assert j > 0;
    if key in ws[j - 1].db.events {
      i, w := EventHasCommit(ws, steps, j - 1, key);
    } else {
      i := j - 1;
      var e := RunLogs(ws, steps, i);
      NewEventIsAdvance(ws[i].db, steps[i], ws[j].db, e, key);
      w := e.w;
    }
  }

  lemma NewEventFromTurn(db: Db, s: TurnStep, db': Db, e: Event, key: TurnKey)
    requires TurnStepTo(db, s, db', e) && key !in db.events && key in db'.events
    ensures e.Advanced? && e.w.Key() == key
  {
  }

  lemma OnlyTurnsAddEvents(db: Db, s: Step, db': Db, e: Event)
    requires StepTo(db, s, db', e) && !s.OnTurn?
    ensures db'.events == db.events
  {
    match s
    case OnPublic(p) => PublicStepFrame(db, p, db', e);
    case OnRelay(r) => RelayStepFrame(db, r, db', e);
    case OnJob(j) => JobStepFrame(db, j, db', e);
  }

  lemma NewEventIsAdvance(db: Db, s: Step, db': Db, e: Event, key: TurnKey)
    requires StepTo(db, s, db', e) && key !in db.events && key in db'.events
    ensures e.Advanced? && e.w.Key() == key
  {
    if s.OnTurn? {
      NewEventFromTurn(db, s.turn, db', e, key);
    } else {
      OnlyTurnsAddEvents(db, s, db', e);
    }
  }

  ghost predicate AllCommitsScan(ws: seq<World>, j: nat) {
    forall i: nat, w :: i < j && Happens(ws, i, Advanced(w)) ==> HashesScan(w)
  }

  /** A commit's event matches exactly when its hashes scan. */
  lemma CommittedEventMatches(ws: seq<World>, steps: seq<Step>, i: nat, j: nat, w: TurnWrite)
    requires Run(ws, steps) && i < j < |ws| && Happens(ws, i, Advanced(w))
    ensures w.Key() in ws[j].db.events && w.Lead() in ws[j].db.states
    ensures EventMatches(ws[j].db.states, ws[j].db.events, MatchedTurns(ws[j].db), w.Key()) <==> HashesScan(w)
  {
    CommittedTurnStays(ws, steps, i, j, w);
    RunInv(ws, steps, j);
    assert EventInHistory(ws[j].db.states, ws[j].db.events, w.Key());
    StoredTurnMatches(ws[j].db, w);
  }

  /** The store a run reaches is well formed exactly when every commit in it used
      the hashes the scan recomputes; no worker step ever changes that. */
  lemma ReachableStoreScans(ws: seq<World>, steps: seq<Step>, j: nat)
    requires Run(ws, steps) && j < |ws|
    ensures WellFormed(ws[j].db) <==> AllCommitsScan(ws, j)
  {
    var db := ws[j].db;
    RunInv(ws, steps, j);
    if WellFormed(db) {
      forall i: nat, w | i < j && Happens(ws, i, Advanced(w)) ensures HashesScan(w) {
        CommittedEventMatches(ws, steps, i, j, w);
        assert LeadMatches(db.states, db.events, MatchedTurns(db), w.Lead());
        assert EventMatches(db.states, db.events, MatchedTurns(db), w.Key());
      }
    }
    if AllCommitsScan(ws, j) {
      forall lead | lead in db.states ensures LeadMatches(db.states, db.events, MatchedTurns(db), lead) {
        ReachableLeadMatches(ws, steps, j, lead);
      }
    }
  }

  lemma ReachableLeadMatches(ws: seq<World>, steps: seq<Step>, j: nat, lead: Id)
    requires Run(ws, steps) && j < |ws| && AllCommitsScan(ws, j) && lead in ws[j].db.states
    requires Linear(ws[j].db.states, ws[j].db.events)
    ensures LeadMatches(ws[j].db.states, ws[j].db.events, MatchedTurns(ws[j].db), lead)
  {
    var db := ws[j].db;
    forall k | k in db.events && k.lead == lead ensures EventMatches(db.states, db.events, MatchedTurns(db), k) {
      ScannedEventMatches(ws, steps, j, k);
    }
    LinearLeadMatches(db.states, db.events, MatchedTurns(db), lead);
  }

  /** What the history guarantees of a lead, the scan does not find fault with. */
  lemma LinearLeadMatches(states: States, events: Events, matched: set<TurnKey>, lead: Id)
    requires Linear(states, events) && lead in states
    requires forall k {:trigger EventMatches(states, events, matched, k)} ::
               k in events && k.lead == lead ==> EventMatches(states, events, matched, k)
    ensures LeadMatches(states, events, matched, lead)
  {
  }

  lemma ScannedEventMatches(ws: seq<World>, steps: seq<Step>, j: nat, k: TurnKey)
    requires Run(ws, steps) && j < |ws| && AllCommitsScan(ws, j) && k in ws[j].db.events
    ensures EventMatches(ws[j].db.states, ws[j].db.events, MatchedTurns(ws[j].db), k)
  {
    var i, w := EventHasCommit(ws, steps, j, k);
    CommittedEventMatches(ws, steps, i, j, w);
  }

  /** An internal handoff job that a worker can claim carries its bundle's
      preimage digest, and the scan recomputes the digest of the whole text: no
      stored job meets both. */
  lemma ClaimableJobFailsScan(b: BundleJson, stored: Digest)
    requires HashRefusal(HandoffBundleHash(b), stored).None?
    ensures JobScanHash(b) != Some(stored)
  {
  }

  /** So once a claimable handoff job is committed, the scan rejects every later store. */
  lemma ClaimableJobPoisonsScan(ws: seq<World>, steps: seq<Step>, i: nat, j: nat, w: TurnWrite, k: nat)
    requires Run(ws, steps) && i < j < |ws| && Happens(ws, i, Advanced(w)) && k < |w.jobs|
    requires HashRefusal(HandoffBundleHash(w.jobs[k].bundle), w.jobs[k].artifactHash).None?
    ensures !WellFormed(ws[j].db)
  {
    ReachableStoreScans(ws, steps, j);
    ClaimableJobFailsScan(w.jobs[k].bundle, w.jobs[k].artifactHash);
  }
}
