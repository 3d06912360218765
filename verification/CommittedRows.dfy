/** What an accepted commit writes, column by column, in terms of the arguments
    of the call alone. */
module CommittedRows {
  import opened Options
  import opened Tables
  import opened TurnWrites
  import opened TurnCommit
  import opened TurnTables
  import opened LeaseQueue
  import opened CommitInvariant
  import opened Replay
  import opened Runs
  import opened Steps

  // -------------------------------------------------- the columns of one row

  predicate OfTurn(key: TurnKey, w: TurnWrite) {
    key.lead == w.commit.state.leadKey && key.turn == w.receipt.turn
  }

  /** The columns of the i-th public row that are written once. */
  predicate ChunkColumns(r: PublicRow, w: TurnWrite, i: nat)
    requires i < |w.rows|
  {
    var c, p := r.content, w.rows[i];
    && OfTurn(r.turn, w) && c.chunkIndex == i
    && c.idempotencyKey == p.idempotencyKey && c.channelId == p.channelId
    && c.key == p.key && c.terms == p.terms && c.effectiveDigest == p.effectiveDigest && c.deadline == p.deadline
    && c.chunkJson == Canonical(p.chunk) && c.chunkHash == ChunkDigest(p.chunk)
    && c.predecessor == (if i == 0 then None else Some(ChunkDigest(w.rows[i - 1].chunk)))
    && c.receiptHash == ReceiptDigest(w.receipt)
  }

  /** Nobody has touched the row yet. */
  predicate Untouched(r: PublicRow) {
    && r.status == Pending && r.owner.None? && r.acquiredAt.None? && r.expiresAt.None?
    && r.fencingToken == 0 && r.claimCount == 0 && r.slots == 0 && r.deliveryReceipt.None?
  }

  predicate Idle(q: QueueState) {
    && q.status == QPending && q.owner.None? && q.acquiredAt.None? && q.expiresAt.None?
    && q.fencingToken == 0 && q.claimCount == 0 && q.failures == 0 && q.targetReceipt.None? && q.ackedAt.None?
  }

  predicate RelayColumns(r: RelayRow, w: TurnWrite, i: nat)
    requires i < |w.relays|
  {
    && OfTurn(r.turn, w) && r.content.commandId == w.relays[i].commandId && r.content.bundle == w.relays[i].bundle
    && r.content.bundleHash == w.relays[i].bundleHash && r.content.receiptHash == ReceiptDigest(w.receipt)
  }

  predicate JobColumns(r: JobRow, w: TurnWrite, i: nat)
    requires i < |w.jobs|
  {
    && OfTurn(r.turn, w) && r.content.kind == w.jobs[i].kind && r.content.bundle == w.jobs[i].bundle
    && r.content.artifactHash == w.jobs[i].artifactHash && r.content.qualificationId == w.jobs[i].qualificationId
    && r.content.epoch == w.jobs[i].epoch && r.content.receiptHash == ReceiptDigest(w.receipt)
  }

  predicate CommandColumns(r: CommandRow, w: TurnWrite, i: nat)
    requires i < |w.commit.commands|
  {
    var c := w.commit.commands[i];
    && OfTurn(r.turn, w) && r.kind == c.kind && r.commandJson == Canonical(c)
    && r.hash == CommandDigest(Canonical(c)) && r.receiptHash == ReceiptDigest(w.receipt)
  }

  predicate SourceColumns(r: SourceRow, w: TurnWrite, i: nat)
    requires i < |w.receipt.sources|
  {
    var s := w.receipt.sources[i];
    && r.sourceId == s.sourceId && r.sourceHash == s.sourceHash && r.sourceJson == Canonical(s)
    && r.receiptHash == ReceiptDigest(w.receipt)
  }

  predicate EventColumns(e: EventRow, w: TurnWrite) {
    && e.eventHash == w.receipt.eventHash && e.commitHash == CommitDigest(w.commit)
    && e.receiptJson == Canonical(w.receipt) && e.receiptHash == ReceiptDigest(w.receipt)
    && e.version == w.expected + 1 && e.occurredAt == w.committedAt
  }

  // --------------------------------------------------- the tables of a commit

  /** The i-th public row and its allocation, before and after. */
  predicate ChunkWritten(db: Db, db': Db, w: TurnWrite, i: nat)
    requires i < |w.rows|
  {
    var p := w.rows[i];
    && p.rowId !in db.outbox && p.rowId in db'.outbox
    && ChunkColumns(db'.outbox[p.rowId], w, i) && Untouched(db'.outbox[p.rowId])
    && p.key in db.authority && p.key in db'.authority
    && AllocationTaken(db.authority[p.key], db'.authority[p.key], p)
  }

  /** An available allocation with the row's terms and ordinal is bound to the row. */
  predicate AllocationTaken(a: AuthRow, b: AuthRow, p: PublicWrite) {
    && !a.header && a.state == Available && a.publicRow.None?
    && a.terms == p.terms && a.ordinal == Some(p.chunk.ordinal)
    && !b.header && b.terms == a.terms && b.ordinal == a.ordinal && b.fencedAt == a.fencedAt
    && b.state == Bound && b.publicRow == Some(p.rowId) && b.revision == a.revision + 1
  }

  lemma ChunkIsWritten(db: Db, w: TurnWrite, i: nat)
    requires Accepts(db, w) && WritesValid(w) && i < |w.rows|
    ensures ChunkWritten(db, Committed(db, w), w, i)
  {
    var outbox := CancelTurns(db.outbox, w.Lead(), w.superseded);
    forall j: nat | j < |w.rows| ensures RowIdFresh(outbox, w, j) {
      assert PublicInsertable(WithPublic(outbox, w, j), w, j);
    }
    PublicRowAt(outbox, w, |w.rows|, i);
    PublicTable(outbox, w, |w.rows|);
    BoundTable(db.authority, w, |w.rows|);
    RowsWellFormed(w, i);
  }

  predicate RelayWritten(db: Db, db': Db, w: TurnWrite, i: nat)
    requires i < |w.relays|
  {
    var p := w.relays[i].relayId;
    p !in db.relays && p in db'.relays && RelayColumns(db'.relays[p], w, i) && Idle(db'.relays[p].queue)
  }

  lemma RelayIsWritten(db: Db, w: TurnWrite, i: nat)
    requires Accepts(db, w) && i < |w.relays|
    ensures RelayWritten(db, Committed(db, w), w, i)
  {
    RelaysTable(db.relays, w, |w.relays|);
  }

  predicate JobWritten(db: Db, db': Db, w: TurnWrite, i: nat)
    requires i < |w.jobs|
  {
    var p := w.jobs[i].jobId;
    && p !in db.jobs && p in db'.jobs && JobColumns(db'.jobs[p], w, i)
    && db'.jobs[p].target == w.jobs[i].target && Idle(db'.jobs[p].queue)
  }

  lemma JobIsWritten(db: Db, w: TurnWrite, i: nat)
    requires Accepts(db, w) && i < |w.jobs|
    ensures JobWritten(db, Committed(db, w), w, i)
  {
    JobsTable(db.jobs, w, |w.jobs|);
  }

  predicate CommandWritten(db: Db, db': Db, w: TurnWrite, i: nat)
    requires i < |w.commit.commands|
  {
    var p := w.commit.commands[i].commandId;
    p !in db.commands && p in db'.commands && CommandColumns(db'.commands[p], w, i)
  }

  lemma CommandIsWritten(db: Db, w: TurnWrite, i: nat)
    requires Accepts(db, w) && i < |w.commit.commands|
    ensures CommandWritten(db, Committed(db, w), w, i)
  {
    CommandsTable(db.commands, w, |w.commit.commands|);
  }

  predicate SourceWritten(db': Db, w: TurnWrite, i: nat)
    requires i < |w.receipt.sources|
  {
    var k := SourceKey(TurnKey(w.commit.state.leadKey, w.receipt.turn), i);
    k in db'.sources && SourceColumns(db'.sources[k], w, i)
  }

  lemma SourceIsWritten(db: Db, w: TurnWrite, i: nat)
    requires Accepts(db, w) && i < |w.receipt.sources|
    ensures SourceWritten(Committed(db, w), w, i)
  {
    SourceRowAt(db.sources, w, |w.receipt.sources|, i);
  }

  predicate ArtifactWritten(db': Db, w: TurnWrite, i: nat)
    requires i < |w.artifacts|
  {
    var k := ArtifactKey(TurnKey(w.commit.state.leadKey, w.receipt.turn), i);
    && k in db'.artifacts && db'.artifacts[k].artifact == w.artifacts[i]
    && db'.artifacts[k].receiptHash == ReceiptDigest(w.receipt)
  }

  lemma ArtifactIsWritten(db: Db, w: TurnWrite, i: nat)
    requires Accepts(db, w) && i < |w.artifacts|
    ensures ArtifactWritten(Committed(db, w), w, i)
  {
    ArtifactRowAt(db.artifacts, w, |w.artifacts|, i);
  }

  /** The event, and the lead's row before and after. */
  predicate LeadWritten(db: Db, db': Db, w: TurnWrite) {
    var lead := w.commit.state.leadKey; var k := TurnKey(lead, w.receipt.turn);
    && k !in db.events && k in db'.events && EventColumns(db'.events[k], w)
    && (forall l :: l in db.events ==> l in db'.events && db'.events[l] == db.events[l])
    && (forall l :: l in db'.events ==> l in db.events || l == k)
    && lead in db.states && lead in db'.states && db'.states.Keys == db.states.Keys
    && (forall l :: l in db.states && l != lead ==> db'.states[l] == db.states[l])
    && db.states[lead].version == w.expected && db'.states[lead].version == w.expected + 1
    && db.states[lead].fencingToken == w.token == db'.states[lead].fencingToken
    && db'.states[lead].stateJson == Canonical(w.commit.state) && db'.states[lead].stateHash == StateDigest(w.commit.state)
  }

  lemma LeadIsWritten(db: Db, w: TurnWrite)
    requires Accepts(db, w)
    ensures LeadWritten(db, Committed(db, w), w)
  {
  }

  /** What becomes of a row that was there: the superseded ones are cancelled and
      lose their lease, and nothing else about them changes. */
  predicate OldRowAfter(r: PublicRow, s: PublicRow, w: TurnWrite) {
    && s.turn == r.turn && s.content == r.content && s.fencingToken == r.fencingToken && s.claimCount == r.claimCount
    && s.slots == r.slots && s.deliveryReceipt == r.deliveryReceipt
    && if r.turn.lead == w.commit.state.leadKey && r.turn.turn in w.superseded
       then s.status == Cancelled && s.owner.None? && s.acquiredAt.None? && s.expiresAt.None?
            && (r.status == Pending || r.status == Leased) && r.slots == 0
       else s.status == r.status && s.owner == r.owner && s.acquiredAt == r.acquiredAt && s.expiresAt == r.expiresAt
  }

  lemma OldRowsStay(db: Db, w: TurnWrite, p: Id)
    requires Accepts(db, w) && p in db.outbox
    ensures p in Committed(db, w).outbox
    ensures Committed(db, w).outbox[p] == CancelTurns(db.outbox, w.Lead(), w.superseded)[p]
  {
    var outbox := CancelTurns(db.outbox, w.Lead(), w.superseded);
    forall j: nat | j < |w.rows| ensures RowIdFresh(outbox, w, j) {
      assert PublicInsertable(WithPublic(outbox, w, j), w, j);
    }
    PublicTable(outbox, w, |w.rows|);
  }

  lemma CancelledAfter(db: Db, w: TurnWrite, p: Id)
    requires AllCancellable(db, w) && p in db.outbox
    ensures OldRowAfter(db.outbox[p], CancelTurns(db.outbox, w.Lead(), w.superseded)[p], w)
  {
    if IsSuperseded(db.outbox[p], w) { SupersededRow(db, w, p); }
  }

  lemma OldRowsAfter(db: Db, w: TurnWrite, p: Id)
    requires Accepts(db, w) && p in db.outbox
    ensures p in Committed(db, w).outbox && OldRowAfter(db.outbox[p], Committed(db, w).outbox[p], w)
  {
    OldRowsStay(db, w, p);
    CancelledAfter(db, w, p);
  }

  /** Allocations that no public row of the turn names stay as they are. */
  lemma OldAllocationsAfter(db: Db, w: TurnWrite, k: AuthKey)
    requires Accepts(db, w) && k in db.authority && forall i :: 0 <= i < |w.rows| ==> w.rows[i].key != k
    ensures k in Committed(db, w).authority && Committed(db, w).authority[k] == db.authority[k]
  {
    BoundTable(db.authority, w, |w.rows|);
  }

  /** An accepted commit writes every argument into its own column, binds each
      public row to an allocation that was available on its terms, cancels exactly
      the superseded rows and leaves the rest as it was. */
  lemma CommitWritesColumns(db: Db, w: TurnWrite)
    requires Accepts(db, w) && WritesValid(w)
    ensures var db' := Committed(db, w);
            && LeadWritten(db, db', w)
            && (forall i: nat :: i < |w.rows| ==> ChunkWritten(db, db', w, i))
            && (forall i: nat :: i < |w.relays| ==> RelayWritten(db, db', w, i))
            && (forall i: nat :: i < |w.jobs| ==> JobWritten(db, db', w, i))
            && (forall i: nat :: i < |w.commit.commands| ==> CommandWritten(db, db', w, i))
            && (forall i: nat :: i < |w.receipt.sources| ==> SourceWritten(db', w, i))
            && (forall i: nat :: i < |w.artifacts| ==> ArtifactWritten(db', w, i))
            && (forall p :: p in db.outbox ==> p in db'.outbox && OldRowAfter(db.outbox[p], db'.outbox[p], w))
            && db'.claims == db.claims
  {
    LeadIsWritten(db, w);
    forall i: nat | i < |w.rows| ensures ChunkWritten(db, Committed(db, w), w, i) { ChunkIsWritten(db, w, i); }
    forall i: nat | i < |w.relays| ensures RelayWritten(db, Committed(db, w), w, i) { RelayIsWritten(db, w, i); }
    forall i: nat | i < |w.jobs| ensures JobWritten(db, Committed(db, w), w, i) { JobIsWritten(db, w, i); }
    forall i: nat | i < |w.commit.commands| ensures CommandWritten(db, Committed(db, w), w, i) { CommandIsWritten(db, w, i); }
    forall i: nat | i < |w.receipt.sources| ensures SourceWritten(Committed(db, w), w, i) { SourceIsWritten(db, w, i); }
    forall i: nat | i < |w.artifacts| ensures ArtifactWritten(Committed(db, w), w, i) { ArtifactIsWritten(db, w, i); }
    forall p | p in db.outbox
      ensures p in Committed(db, w).outbox && OldRowAfter(db.outbox[p], Committed(db, w).outbox[p], w)
    {
      OldRowsAfter(db, w, p);
    }
  }

  /** Every reservation of an accepted commit is for its state's own workflow, or is one
      of that workflow's packaged commands. */
  lemma AcceptedReservationsBind(db: Db, w: TurnWrite, i: nat)
    requires Accepts(db, w) && i < |w.commit.commands| && w.commit.commands[i].kind == Reservation
    ensures w.commit.state.workflow.Some?
    ensures var c, f := w.commit.commands[i], w.commit.state.workflow.value;
            c.subjectId == f.workflowId || exists j :: 0 <= j < |f.packageChildren| && f.packageChildren[j] == c
  {
    assert CommandInsertable(WithCommands(db.commands, w, i), w, i);
  }

  /** And each such command can be inserted. */
  lemma ReservationInsertable(t: map<Id, CommandRow>, w: TurnWrite, i: nat, f: Workflow, j: nat)
    requires i < |w.commit.commands| && w.commit.commands[i].commandId !in t && w.commit.state.workflow == Some(f)
    requires w.commit.commands[i].subjectId == f.workflowId || (j < |f.packageChildren| && f.packageChildren[j] == w.commit.commands[i])
    ensures CommandInsertable(t, w, i)
  {
  }

  // ---------------------------------------------------------- in every run

  predicate ChunkKept(db: Db, w: TurnWrite, i: nat)
    requires i < |w.rows|
  {
    w.rows[i].rowId in db.outbox && ChunkColumns(db.outbox[w.rows[i].rowId], w, i)
  }

  predicate RelayKept(db: Db, w: TurnWrite, i: nat)
    requires i < |w.relays|
  {
    w.relays[i].relayId in db.relays && RelayColumns(db.relays[w.relays[i].relayId], w, i)
  }

  predicate JobKept(db: Db, w: TurnWrite, i: nat)
    requires i < |w.jobs|
  {
    w.jobs[i].jobId in db.jobs && JobColumns(db.jobs[w.jobs[i].jobId], w, i)
  }

  predicate CommandKept(db: Db, w: TurnWrite, i: nat)
    requires i < |w.commit.commands|
  {
    w.commit.commands[i].commandId in db.commands && CommandColumns(db.commands[w.commit.commands[i].commandId], w, i)
  }

  predicate EventKept(db: Db, w: TurnWrite) {
    var key := TurnKey(w.commit.state.leadKey, w.receipt.turn);
    key in db.events && EventColumns(db.events[key], w)
  }

  /** The write-once columns of a committed turn's rows, at any later moment. */
  ghost predicate ColumnsKept(db: Db, w: TurnWrite) {
    && EventKept(db, w)
    && (forall i: nat :: i < |w.rows| ==> ChunkKept(db, w, i))
    && (forall i: nat :: i < |w.relays| ==> RelayKept(db, w, i))
    && (forall i: nat :: i < |w.jobs| ==> JobKept(db, w, i))
    && (forall i: nat :: i < |w.commit.commands| ==> CommandKept(db, w, i))
    && (forall i: nat :: i < |w.receipt.sources| ==> SourceWritten(db, w, i))
    && (forall i: nat :: i < |w.artifacts| ==> ArtifactWritten(db, w, i))
  }

  lemma StoredChunk(db: Db, w: TurnWrite, i: nat)
    requires RowsStored(db.outbox, w) && WritesValid(w) && ReceiptBinds(w) && i < |w.rows|
    ensures ChunkKept(db, w, i)
  {
    RowsWellFormed(w, i);
  }

  lemma StoredEvent(db: Db, w: TurnWrite)
    requires Stored(db, w) && w.commit.state.version == w.expected + 1
    ensures EventKept(db, w)
  {
  }

  lemma StoredQueues(db: Db, w: TurnWrite)
    requires RelaysStored(db.relays, w) && JobsStored(db.jobs, w)
    ensures forall i: nat :: i < |w.relays| ==> RelayKept(db, w, i)
    ensures forall i: nat :: i < |w.jobs| ==> JobKept(db, w, i)
  {
  }

  lemma StoredSets(db: Db, w: TurnWrite)
    requires SourcesStored(db.sources, w) && SameArtifacts(db.artifacts, w) && CommandsStored(db.commands, w)
    ensures forall i: nat :: i < |w.commit.commands| ==> CommandKept(db, w, i)
    ensures forall i: nat :: i < |w.receipt.sources| ==> SourceWritten(db, w, i)
    ensures forall i: nat :: i < |w.artifacts| ==> ArtifactWritten(db, w, i)
  {
  }

  lemma StoredColumns(db: Db, w: TurnWrite)
    requires Stored(db, w) && WritesValid(w) && PreCheck(w).None?
    ensures ColumnsKept(db, w)
  {
    StoredEvent(db, w);
    forall i: nat | i < |w.rows| ensures ChunkKept(db, w, i) { StoredChunk(db, w, i); }
    StoredQueues(db, w);
    StoredSets(db, w);
  }

  /** In every run, each of them still holds what its commit was called with. */
  lemma CommittedColumnsStay(ws: seq<World>, steps: seq<Step>, i: nat, j: nat, w: TurnWrite)
    requires Run(ws, steps) && i < j < |ws| && Happens(ws, i, Advanced(w))
    ensures ColumnsKept(ws[j].db, w)
  {
    CommittedTurnStays(ws, steps, i, j, w);
    StoredColumns(ws[j].db, w);
  }
}
