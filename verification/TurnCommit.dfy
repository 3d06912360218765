/** When a turn commit is accepted and what it leaves behind, stated on whole
    tables. The class in BoundaryStore.dfy inserts the rows one by one. */
module TurnCommit {
  import opened Options
  import opened Tables
  import opened TurnWrites

  // ------------------------------------------------------------- the rows

  function NewState(w: TurnWrite, row: StateRow): StateRow {
    StateRow(w.commit.state.version, Canonical(w.commit.state), StateDigest(w.commit.state), row.fencingToken)
  }

  function NewEvent(w: TurnWrite): EventRow {
    EventRow(w.receipt.eventHash, CommitDigest(w.commit), Canonical(w.receipt), w.ReceiptHash(),
             w.commit.state.version, w.committedAt)
  }

  function NewSource(w: TurnWrite, s: SourceEvent): SourceRow {
    SourceRow(s.sourceId, s.sourceHash, Canonical(s), w.ReceiptHash())
  }

  function NewCommand(w: TurnWrite, c: Command): CommandRow {
    CommandRow(w.Key(), c.kind, Canonical(c), CommandDigest(Canonical(c)), w.ReceiptHash())
  }

  const FRESH_QUEUE := QueueState(QPending, None, 0, None, None, 0, 0, None, None)

  function NewRelay(w: TurnWrite, r: RelayWrite): RelayRow {
    RelayRow(w.Key(), RelayContent(r.commandId, r.bundle, r.bundleHash, w.ReceiptHash()), FRESH_QUEUE)
  }

  function NewJob(w: TurnWrite, j: JobWrite): JobRow {
    JobRow(w.Key(), JobContent(j.kind, j.bundle, j.artifactHash, w.ReceiptHash(), j.qualificationId, j.epoch),
           j.target, FRESH_QUEUE)
  }

  function PredecessorHash(w: TurnWrite, i: nat): Option<Digest>
    requires i < |w.rows|
  {
    if i == 0 then None else Some(ChunkDigest(w.rows[i - 1].chunk))
  }

  function ContentOf(w: TurnWrite, i: nat): PublicContent
    requires i < |w.rows|
  {
    var p := w.rows[i];
    PublicContent(p.chunk.ordinal, p.idempotencyKey, p.channelId, p.key, p.terms, p.effectiveDigest,
                  Canonical(p.chunk), ChunkDigest(p.chunk), PredecessorHash(w, i), w.ReceiptHash(), p.deadline)
  }

  function NewPublic(w: TurnWrite, i: nat): PublicRow
    requires i < |w.rows|
  {
    PublicRow(w.Key(), ContentOf(w, i), Pending, None, 0, None, None, 0, 0, None)
  }

  function BoundAuth(a: AuthRow, p: Id): AuthRow {
    a.(state := Bound, publicRow := Some(p), revision := a.revision + 1)
  }

  // ------------------------------------- each table after its first n inserts

  function WithSources(t: map<SourceKey, SourceRow>, w: TurnWrite, n: nat): map<SourceKey, SourceRow>
    requires n <= |w.receipt.sources|
  {
    if n == 0 then t
    else WithSources(t, w, n - 1)[SourceKey(w.Key(), n - 1) := NewSource(w, w.receipt.sources[n - 1])]
  }

  function WithArtifacts(t: map<ArtifactKey, ArtifactRow>, w: TurnWrite, n: nat): map<ArtifactKey, ArtifactRow>
    requires n <= |w.artifacts|
  {
    if n == 0 then t
    else WithArtifacts(t, w, n - 1)[ArtifactKey(w.Key(), n - 1) := ArtifactRow(w.artifacts[n - 1], w.ReceiptHash())]
  }

  function WithCommands(t: map<Id, CommandRow>, w: TurnWrite, n: nat): map<Id, CommandRow>
    requires n <= |w.commit.commands|
  {
    if n == 0 then t
    else WithCommands(t, w, n - 1)[w.commit.commands[n - 1].commandId := NewCommand(w, w.commit.commands[n - 1])]
  }

  function WithRelays(t: map<Id, RelayRow>, w: TurnWrite, n: nat): map<Id, RelayRow>
    requires n <= |w.relays|
  {
    if n == 0 then t
    else WithRelays(t, w, n - 1)[w.relays[n - 1].relayId := NewRelay(w, w.relays[n - 1])]
  }

  function WithJobs(t: map<Id, JobRow>, w: TurnWrite, n: nat): map<Id, JobRow>
    requires n <= |w.jobs|
  {
    if n == 0 then t
    else WithJobs(t, w, n - 1)[w.jobs[n - 1].jobId := NewJob(w, w.jobs[n - 1])]
  }

  function WithPublic(t: map<Id, PublicRow>, w: TurnWrite, n: nat): map<Id, PublicRow>
    requires n <= |w.rows|
  {
    if n == 0 then t
    else WithPublic(t, w, n - 1)[w.rows[n - 1].rowId := NewPublic(w, n - 1)]
  }

  /** The allocation table after the first `n` public rows took theirs. */
  function WithBound(t: map<AuthKey, AuthRow>, w: TurnWrite, n: nat): map<AuthKey, AuthRow>
    requires n <= |w.rows|
  {
    if n == 0 then t
    else
      var t1, p := WithBound(t, w, n - 1), w.rows[n - 1];
      if p.key in t1 then t1[p.key := BoundAuth(t1[p.key], p.rowId)] else t1
  }

  // --------------------------------------------------------------- replay

  /** The stored event of this aggregate turn is the one being written. */
  predicate SameEvent(db: Db, w: TurnWrite)
    requires w.Key() in db.events
  {
    var e := db.events[w.Key()];
    && e.eventHash == w.receipt.eventHash && e.commitHash == CommitDigest(w.commit)
    && e.receiptJson == Canonical(w.receipt) && e.receiptHash == w.ReceiptHash()
    && e.version == w.commit.state.version
  }

  // The rows of one turn.

  function SourcesOf(t: map<SourceKey, SourceRow>, key: TurnKey): set<SourceKey> {
    set k | k in t && k.turn == key
  }

  function ArtifactsOf(t: map<ArtifactKey, ArtifactRow>, key: TurnKey): set<ArtifactKey> {
    set k | k in t && k.turn == key
  }

  function CommandsOf(t: map<Id, CommandRow>, key: TurnKey): set<Id> {
    set k | k in t && t[k].turn == key
  }

  function RelaysOf(t: map<Id, RelayRow>, key: TurnKey): set<Id> {
    set k | k in t && t[k].turn == key
  }

  function JobsOf(t: map<Id, JobRow>, key: TurnKey): set<Id> {
    set k | k in t && t[k].turn == key
  }

  function RowsOf(outbox: map<Id, PublicRow>, key: TurnKey): set<Id> {
    set p | p in outbox && outbox[p].turn == key
  }

  predicate SameArtifacts(t: map<ArtifactKey, ArtifactRow>, w: TurnWrite) {
    && |ArtifactsOf(t, w.Key())| == |w.artifacts|
    && forall i: nat :: i < |w.artifacts| ==>
         ArtifactKey(w.Key(), i) in t && t[ArtifactKey(w.Key(), i)] == ArtifactRow(w.artifacts[i], w.ReceiptHash())
  }

  predicate SameRelays(t: map<Id, RelayRow>, w: TurnWrite) {
    && |RelaysOf(t, w.Key())| == |w.relays|
    && forall i: nat :: i < |w.relays| ==>
         w.relays[i].relayId in t && t[w.relays[i].relayId].content == NewRelay(w, w.relays[i]).content
  }

  predicate SameJobContents(t: map<Id, JobRow>, w: TurnWrite) {
    && |JobsOf(t, w.Key())| == |w.jobs|
    && forall i: nat :: i < |w.jobs| ==>
         w.jobs[i].jobId in t && t[w.jobs[i].jobId].content == NewJob(w, w.jobs[i]).content
  }

  predicate SameTargets(t: map<Id, JobRow>, w: TurnWrite) {
    forall i: nat :: i < |w.jobs| ==> w.jobs[i].jobId in t && t[w.jobs[i].jobId].target == w.jobs[i].target
  }

  predicate SamePublic(t: map<Id, PublicRow>, w: TurnWrite) {
    && |RowsOf(t, w.Key())| == |w.rows|
    && forall i: nat :: i < |w.rows| ==>
         w.rows[i].rowId in t && t[w.rows[i].rowId].content == ContentOf(w, i)
  }

  /** `assert_replay_children`: every stored child is the one being written. */
  predicate SameChildren(db: Db, w: TurnWrite) {
    SameArtifacts(db.artifacts, w) && SameRelays(db.relays, w) && SameJobContents(db.jobs, w) && SamePublic(db.outbox, w)
  }

  predicate ReplayMatches(db: Db, w: TurnWrite)
    requires w.Key() in db.events
  {
    SameEvent(db, w) && SameChildren(db, w) && SameTargets(db.jobs, w)
  }

  // -------------------------------------------------- superseded completions

  /** `load_turn_receipt`: the lookup is by aggregate turn alone, over all leads. */
  function LoadTurnReceipt(events: map<TurnKey, EventRow>, turn: Id): Result<Option<TurnReceipt>> {
    var keys := set k | k in events && k.turn == turn;
    if keys == {} then Ok(None)
    else if |keys| != 1 then Err(DataCorruption)
    else LoadOnly(events, turn, keys)
  }

  function LoadOnly(events: map<TurnKey, EventRow>, turn: Id, keys: set<TurnKey>): Result<Option<TurnReceipt>>
    requires |keys| == 1 && forall k :: k in keys ==> k in events
  {
    OnlyElement(keys);
    var k :| k in keys;
    if events[k].receiptJson.Corrupt? then Err(ValueError)
    else
      var r := events[k].receiptJson.value;
      if !ReceiptValid(r) then Err(ValueError)
      else if r.turn != turn || ReceiptDigest(r) != events[k].receiptHash then Err(DataCorruption)
      else Ok(Some(r))
  }

  lemma OnlyElement<T>(s: set<T>)
    requires |s| == 1
    ensures exists k :: k in s
    ensures forall k, l :: k in s && l in s ==> k == l
  {
    var k :| k in s;
    assert |s - {k}| == 0;
    forall l | l in s ensures l == k { assert l !in s - {k}; }
  }

  const COMPLETION_TURN := "completion-turn:"

  /** The source event that authenticates a consolidation; the hashed turn id
      in the real identifier is represented by the turn id itself. */
  function ConsolidationSource(turn: Id, receiptHash: Digest): SourceEvent {
    SourceEvent(Id("completion-merge:" + turn.text), receiptHash)
  }

  predicate IsUnattemptedCompletion(outbox: map<Id, PublicRow>, key: TurnKey) {
    && COMPLETION_TURN <= key.turn.text
    && RowsOf(outbox, key) != {}
    && forall p :: p in outbox && outbox[p].turn == key ==>
         (outbox[p].status == Pending || outbox[p].status == Leased) && outbox[p].slots == 0
  }

  /** The error the consolidation loop raises at one superseded turn, if any. */
  function CancelError(events: map<TurnKey, EventRow>, outbox: map<Id, PublicRow>, w: TurnWrite, turn: Id): Option<Error> {
    var loaded := LoadTurnReceipt(events, turn);
    if loaded.Err? then Some(loaded.error)
    else if loaded.value.None? then Some(ValueError)
    else if ConsolidationSource(turn, ReceiptDigest(loaded.value.value)) !in w.receipt.sources then Some(ValueError)
    else if !IsUnattemptedCompletion(outbox, TurnKey(w.Lead(), turn)) then Some(ConcurrencyConflict)
    else None
  }

  function CancelledRow(r: PublicRow): PublicRow {
    r.(status := Cancelled, owner := None, acquiredAt := None, expiresAt := None)
  }

  /** The public rows after the superseded turns in `turns` are cancelled. */
  function CancelTurns(outbox: map<Id, PublicRow>, lead: Id, turns: seq<Id>): map<Id, PublicRow> {
    map p | p in outbox ::
      if outbox[p].turn.lead == lead && outbox[p].turn.turn in turns then CancelledRow(outbox[p]) else outbox[p]
  }

  predicate AllCancellable(db: Db, w: TurnWrite) {
    forall i :: 0 <= i < |w.superseded| ==> CancelError(db.events, db.outbox, w, w.superseded[i]).None?
  }

  // ------------------------------------------------------------ acceptance

  /** The receipt names the receipt of the version before it. */
  predicate PreviousOk(db: Db, w: TurnWrite) {
    if w.expected == 0 then w.receipt.previous.None?
    else exists k :: k in db.events && IsPreviousEvent(db, w, k)
  }

  predicate IsPreviousEvent(db: Db, w: TurnWrite, k: TurnKey)
    requires k in db.events
  {
    k.lead == w.Lead() && db.events[k].version == w.expected
    && w.receipt.previous == Some(db.events[k].receiptHash)
  }

  predicate StateCurrent(db: Db, w: TurnWrite) {
    && w.Lead() in db.states
    && db.states[w.Lead()].version == w.expected && db.states[w.Lead()].fencingToken == w.token
  }

  predicate BindsWorkflow(c: Command, workflow: Option<Workflow>) {
    workflow.Some? && (c.subjectId == workflow.value.workflowId || c in workflow.value.packageChildren)
  }

  predicate EventInsertable(events: map<TurnKey, EventRow>, w: TurnWrite) {
    && w.Key() !in events
    && forall k :: k in events ==>
         !(k.lead == w.Lead() && events[k].version == w.commit.state.version)
         && events[k].receiptHash != w.ReceiptHash()
  }

  predicate SourceInsertable(sources: map<SourceKey, SourceRow>, w: TurnWrite, i: nat)
    requires i < |w.receipt.sources|
  {
    && SourceKey(w.Key(), i) !in sources
    && forall k :: k in sources && k.turn.lead == w.Lead() ==> sources[k].sourceId != w.receipt.sources[i].sourceId
  }

  predicate ArtifactInsertable(artifacts: map<ArtifactKey, ArtifactRow>, w: TurnWrite, i: nat)
    requires i < |w.artifacts|
  {
    var a := w.artifacts[i];
    && ArtifactKey(w.Key(), i) !in artifacts
    && (forall k :: k in artifacts && k.turn.lead == w.Lead() ==> artifacts[k].artifact.artifactId != a.artifactId)
    && (forall k :: k in artifacts && k.turn == w.Key() && a.frameSequence.Some? ==>
          artifacts[k].artifact.frameSequence != a.frameSequence)
  }

  predicate RelayInsertable(relays: map<Id, RelayRow>, w: TurnWrite, i: nat)
    requires i < |w.relays|
  {
    && w.relays[i].relayId !in relays
    && forall k :: k in relays ==> relays[k].content.commandId != w.relays[i].commandId
  }

  predicate JobInsertable(jobs: map<Id, JobRow>, w: TurnWrite, i: nat)
    requires i < |w.jobs|
  {
    && w.jobs[i].jobId !in jobs
    && forall k :: k in jobs ==> jobs[k].target != w.jobs[i].target
  }

  /** The allocation CAS finds an available row with the public row's terms. */
  predicate AllocationFree(auth: map<AuthKey, AuthRow>, w: TurnWrite, i: nat)
    requires i < |w.rows|
  {
    var p := w.rows[i];
    && p.key in auth
    && !auth[p.key].header && auth[p.key].terms == p.terms && auth[p.key].ordinal == Some(p.chunk.ordinal)
    && auth[p.key].state == Available && auth[p.key].publicRow.None?
  }

  predicate PublicInsertable(outbox: map<Id, PublicRow>, w: TurnWrite, i: nat)
    requires i < |w.rows|
  {
    && w.rows[i].rowId !in outbox
    && forall k :: k in outbox ==>
         outbox[k].content.idempotencyKey != w.rows[i].idempotencyKey
         && !(outbox[k].turn == w.Key() && outbox[k].content.chunkIndex == w.rows[i].chunk.ordinal)
  }

  predicate RowIdUnbound(auth: map<AuthKey, AuthRow>, w: TurnWrite, i: nat)
    requires i < |w.rows|
  {
    forall k :: k in auth ==> auth[k].publicRow != Some(w.rows[i].rowId)
  }

  // Every row meets its constraints in the table the earlier rows left.

  predicate SourcesInsertable(t: map<SourceKey, SourceRow>, w: TurnWrite, n: nat)
    requires n <= |w.receipt.sources|
  {
    forall i: nat :: i < n ==> SourceInsertable(WithSources(t, w, i), w, i)
  }

  predicate ArtifactsInsertable(t: map<ArtifactKey, ArtifactRow>, w: TurnWrite, n: nat)
    requires n <= |w.artifacts|
  {
    forall i: nat :: i < n ==> ArtifactInsertable(WithArtifacts(t, w, i), w, i)
  }

  predicate CommandInsertable(t: map<Id, CommandRow>, w: TurnWrite, i: nat)
    requires i < |w.commit.commands|
  {
    var c := w.commit.commands[i];
    c.commandId !in t && (c.kind == Reservation ==> BindsWorkflow(c, w.commit.state.workflow))
  }

  predicate CommandsInsertable(t: map<Id, CommandRow>, w: TurnWrite, n: nat)
    requires n <= |w.commit.commands|
  {
    forall i: nat :: i < n ==> CommandInsertable(WithCommands(t, w, i), w, i)
  }

  predicate RelaysInsertable(t: map<Id, RelayRow>, w: TurnWrite, n: nat)
    requires n <= |w.relays|
  {
    forall i: nat :: i < n ==> RelayInsertable(WithRelays(t, w, i), w, i)
  }

  predicate JobsInsertable(t: map<Id, JobRow>, w: TurnWrite, n: nat)
    requires n <= |w.jobs|
  {
    forall i: nat :: i < n ==> JobInsertable(WithJobs(t, w, i), w, i)
  }

  predicate PublicRowsInsertable(auth: map<AuthKey, AuthRow>, outbox: map<Id, PublicRow>, w: TurnWrite, n: nat)
    requires n <= |w.rows|
  {
    forall i: nat :: i < n ==>
      AllocationFree(WithBound(auth, w, i), w, i) && RowIdUnbound(WithBound(auth, w, i), w, i)
      && PublicInsertable(WithPublic(outbox, w, i), w, i)
  }

  predicate ChildrenInsertable(db: Db, w: TurnWrite) {
    && SourcesInsertable(db.sources, w, |w.receipt.sources|)
    && ArtifactsInsertable(db.artifacts, w, |w.artifacts|)
    && CommandsInsertable(db.commands, w, |w.commit.commands|)
    && RelaysInsertable(db.relays, w, |w.relays|)
    && JobsInsertable(db.jobs, w, |w.jobs|)
  }

  predicate Insertable(db: Db, w: TurnWrite) {
    && EventInsertable(db.events, w)
    && ChildrenInsertable(db, w)
    && PublicRowsInsertable(db.authority, CancelTurns(db.outbox, w.Lead(), w.superseded), w, |w.rows|)
  }

  /** The commit advances the lead's state. */
  predicate Accepts(db: Db, w: TurnWrite) {
    && PreCheck(w).None?
    && w.Key() !in db.events
    && PreviousOk(db, w) && StateCurrent(db, w)
    && AllCancellable(db, w)
    && Insertable(db, w)
  }

  /** The tables after the state update and the inserts. */
  function Appended(db: Db, w: TurnWrite): Db
    requires w.Lead() in db.states
  {
    Db(db.states[w.Lead() := NewState(w, db.states[w.Lead()])],
       db.events[w.Key() := NewEvent(w)],
       WithSources(db.sources, w, |w.receipt.sources|),
       WithArtifacts(db.artifacts, w, |w.artifacts|),
       WithCommands(db.commands, w, |w.commit.commands|),
       WithRelays(db.relays, w, |w.relays|),
       WithJobs(db.jobs, w, |w.jobs|),
       WithBound(db.authority, w, |w.rows|),
       WithPublic(db.outbox, w, |w.rows|),
       db.claims)
  }

  /** The tables after an accepted commit. */
  function Committed(db: Db, w: TurnWrite): Db
    requires w.Lead() in db.states
  {
    Appended(db.(outbox := CancelTurns(db.outbox, w.Lead(), w.superseded)), w)
  }
}
