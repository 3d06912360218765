/** Concrete runs of the version 8 store that reach the cases in which it does
    not keep its promises. */
module TurnHistories {
  import opened Options
  import opened Tables
  import opened TurnWrites
  import opened TurnCommit
  import opened LeaseQueue
  import opened BoundaryStore
  import opened History
  import opened Scan
  import opened ReachableScan
  import opened ScanHashes
  import opened Steps
  import opened Replay
  import opened Runs
  import Text

  // ------------------------------------------------- a first turn of a lead

  /** What else a turn writes: at most one command, relay and job. */
  datatype Extras = Extras(commands: seq<Command>, relays: seq<RelayWrite>, jobs: seq<JobWrite>)

  const NOTHING: Extras := Extras([], [], [])

  function StateOf(lead: Id): BoundaryState {
    EmptyState(lead).(version := 1, workflow := Some(Workflow(Id("workflow"), [])))
  }

  function Made(id: string, kind: ArtifactKind, payload: Payload): Artifact {
    Artifact(Id(id), kind, if payload.FrameBytes? then Some(payload.sequence) else None, None, payload,
             ArtifactDigest(kind, payload))
  }

  const FRAME: Artifact := Made("frame", FrameCommitment, FrameBytes(1, "frame"))

  function ClosureOf(turn: Id): Artifact {
    Made("closure", MayaClosure, ClosureBytes(Closure(turn, "inform", "route", "reply", 1, "")))
  }

  function ProposalOf(turn: Id): Artifact {
    Made("proposal", MayaProposal, ProposalBytes(Proposal(
      turn, "inform", [], [], [], [], [], ClosureOf(turn).hash, FRAME.hash, 1, OpaqueDigest("mac"), OpaqueDigest("graph"),
      "route", "reply", None)))
  }

  function DecisionOf(lead: Id, x: Extras): Artifact {
    Made("decision", KernelDecision, DecisionBytes(BoundaryCommit(StateOf(lead), x.commands, [], [])))
  }

  function ArtifactsFor(lead: Id, turn: Id, x: Extras): seq<Artifact> {
    [FRAME, ClosureOf(turn), ProposalOf(turn), DecisionOf(lead, x)]
  }

  function ReceiptFor(lead: Id, turn: Id, rows: seq<PublicWrite>, x: Extras): TurnReceipt {
    TurnReceipt(turn, OpaqueDigest("event"), [SourceEvent(Id("source"), OpaqueDigest("source"))],
                ProposalOf(turn).hash, DecisionOf(lead, x).hash, [], 1, StateDigest(StateOf(lead)),
                ChunkRows(rows), CommandRowsOf(x.commands), RelayRows(x.relays), JobRows(x.jobs), OpaqueDigest("mac"), 1,
                OpaqueDigest("graph"), OpaqueDigest("capability"), OpaqueDigest("effective"), OpaqueDigest("projection"),
                None, 5, None)
  }

  /** The first turn of a lead, with these public rows and jobs. */
  function FirstTurn(lead: Id, turn: Id, rows: seq<PublicWrite>, x: Extras): TurnWrite {
    TurnWrite(0, 1, BoundaryCommit(StateOf(lead), x.commands, [], []), ReceiptFor(lead, turn, rows, x),
              ArtifactsFor(lead, turn, x), x.relays, x.jobs, rows, 5, [])
  }

  /** At most one row, with a chunk of the turn, and extras the constructors accept. */
  predicate Fits(turn: Id, rows: seq<PublicWrite>, x: Extras) {
    && |rows| <= 1 && |x.commands| <= 1 && |x.relays| <= 1 && |x.jobs| <= 1
    && (forall i :: 0 <= i < |rows| ==>
          && rows[i].chunk.turn == turn && rows[i].chunk.ordinal == i && rows[i].chunk.author == AuthenticatedSystem
          && rows[i].chunk.closureHash == ClosureOf(turn).hash && rows[i].effectiveDigest == OpaqueDigest("effective")
          && rows[i].terms.capabilityDigest == OpaqueDigest("capability") && TermsCheck(rows[i].terms))
    && (forall i :: 0 <= i < |x.jobs| ==> !x.jobs[i].bundle.NoncanonicalJson? && EpochCheck(x.jobs[i]))
    && (forall i :: 0 <= i < |x.relays| ==>
          !x.relays[i].bundle.NoncanonicalJson? && IsCommitted(x.relays[i].commandId, x.commands))
  }

  lemma OfFour(a: Artifact, b: Artifact, c: Artifact, d: Artifact, kind: ArtifactKind)
    ensures OfKind([a, b, c, d], kind)
            == (if a.kind == kind then [a] else []) + (if b.kind == kind then [b] else [])
               + (if c.kind == kind then [c] else []) + (if d.kind == kind then [d] else [])
  {
    assert [a, b, c, d][1..] == [b, c, d] && [b, c, d][1..] == [c, d] && [c, d][1..] == [d] && [d][1..] == [];
    assert OfKind([d], kind) == if d.kind == kind then [d] else [];
    assert OfKind([c, d], kind) == (if c.kind == kind then [c] else []) + OfKind([d], kind);
    assert OfKind([b, c, d], kind) == (if b.kind == kind then [b] else []) + OfKind([c, d], kind);
  }

  lemma KindsOf(lead: Id, turn: Id, x: Extras)
    ensures var artifacts := ArtifactsFor(lead, turn, x);
            && OfKind(artifacts, FrameCommitment) == [FRAME] && OfKind(artifacts, MayaClosure) == [ClosureOf(turn)]
            && OfKind(artifacts, MayaProposal) == [ProposalOf(turn)] && OfKind(artifacts, KernelDecision) == [DecisionOf(lead, x)]
            && OfKind(artifacts, ReadObservation) == [] && OfKind(artifacts, FactArtifact) == []
            && OfKind(artifacts, ToolProposal) == [] && OfKind(artifacts, LearningProposal) == []
  {
    forall kind ensures var s := OfKind(ArtifactsFor(lead, turn, x), kind);
                        s == (if FRAME.kind == kind then [FRAME] else [])
                             + (if ClosureOf(turn).kind == kind then [ClosureOf(turn)] else [])
                             + (if ProposalOf(turn).kind == kind then [ProposalOf(turn)] else [])
                             + (if DecisionOf(lead, x).kind == kind then [DecisionOf(lead, x)] else [])
    {
      OfFour(FRAME, ClosureOf(turn), ProposalOf(turn), DecisionOf(lead, x), kind);
    }
  }

  lemma ByAuthor(turn: Id, rows: seq<PublicWrite>, x: Extras)
    requires Fits(turn, rows, x)
    ensures By(ChunksOf(rows), Maya) == [] && By(ChunksOf(rows), AuthenticatedSystem) == ChunksOf(rows)
  {
    if |rows| == 1 { assert ChunksOf(rows)[1..] == []; }
  }

  lemma ProposalFits(lead: Id, turn: Id, rows: seq<PublicWrite>, x: Extras)
    requires Fits(turn, rows, x)
    ensures ProposalOk(ReceiptFor(lead, turn, rows, x), ArtifactsFor(lead, turn, x), ChunksOf(rows), ProposalOf(turn),
                       ClosureOf(turn), FRAME)
  {
    KindsOf(lead, turn, x);
    ByAuthor(turn, rows, x);
    assert ReceiptChunks(ReceiptFor(lead, turn, rows, x)) == ChunksOf(rows);
  }

  lemma DecisionFits(lead: Id, turn: Id, rows: seq<PublicWrite>, x: Extras)
    ensures DecisionOk(ReceiptFor(lead, turn, rows, x), DecisionOf(lead, x), Some(BoundaryCommit(StateOf(lead), x.commands, [], [])))
  {
  }

  lemma HashesFit(lead: Id, turn: Id, x: Extras)
    ensures var s := ArtifactsFor(lead, turn, x); forall i :: 0 <= i < |s| ==> s[i].hash == ArtifactDigest(s[i].kind, s[i].payload)
  {
  }

  lemma GraphFits(lead: Id, turn: Id, rows: seq<PublicWrite>, x: Extras)
    requires Fits(turn, rows, x)
    ensures GraphOk(ReceiptFor(lead, turn, rows, x), ArtifactsFor(lead, turn, x), ChunksOf(rows),
                    Some(BoundaryCommit(StateOf(lead), x.commands, [], [])))
  {
    KindsOf(lead, turn, x);
    HashesFit(lead, turn, x);
    ProposalFits(lead, turn, rows, x);
    DecisionFits(lead, turn, rows, x);
  }

  lemma ArtifactIdsDiffer(lead: Id, turn: Id, x: Extras)
    ensures ArtifactIdsDistinct(ArtifactsFor(lead, turn, x))
  {
    assert "proposal"[0] != "decision"[0];
  }

  lemma NothingRead(lead: Id, turn: Id, x: Extras)
    ensures ReadRows(ArtifactsFor(lead, turn, x)) == []
  {
    KindsOf(lead, turn, x);
  }

  /** Every row but those of the artifact graph. */
  predicate RowsBind(w: TurnWrite) {
    && w.receipt.committedAt == w.committedAt && w.receipt.stateVersion == w.commit.state.version
    && w.receipt.stateHash == StateDigest(w.commit.state) && w.receipt.readRows == []
    && w.receipt.commandRows == CommandRowsOf(w.commit.commands) && CommitIdsDistinct(w.commit.commands)
    && w.receipt.relayRows == RelayRows(w.relays)
    && (forall i :: 0 <= i < |w.relays| ==> IsCommitted(w.relays[i].commandId, w.commit.commands))
    && w.receipt.jobRows == JobRows(w.jobs) && w.receipt.chunks == ChunkRows(w.rows)
    && forall i :: 0 <= i < |w.rows| ==>
         w.rows[i].chunk.turn == w.receipt.turn && w.rows[i].terms.capabilityDigest == w.receipt.capabilityDigest
         && w.rows[i].effectiveDigest == w.receipt.effectiveDigest
  }

  lemma ReceiptBindsRows(w: TurnWrite)
    requires RowsBind(w) && ArtifactIdsDistinct(w.artifacts) && ReadRows(w.artifacts) == []
    requires GraphOk(w.receipt, w.artifacts, ChunksOf(w.rows), Some(w.commit))
    ensures ReceiptBinds(w)
  {
  }

  lemma FirstTurnRows(lead: Id, turn: Id, rows: seq<PublicWrite>, x: Extras)
    requires Fits(turn, rows, x)
    ensures RowsBind(FirstTurn(lead, turn, rows, x))
  {
  }

  /** The argument checks accept it. */
  lemma FirstTurnBinds(lead: Id, turn: Id, rows: seq<PublicWrite>, x: Extras)
    requires Fits(turn, rows, x)
    ensures PreCheck(FirstTurn(lead, turn, rows, x)).None?
  {
    ArtifactIdsDiffer(lead, turn, x);
    NothingRead(lead, turn, x);
    GraphFits(lead, turn, rows, x);
    FirstTurnRows(lead, turn, rows, x);
    ReceiptBindsRows(FirstTurn(lead, turn, rows, x));
  }

  /** So do the constructors. */
  lemma FirstTurnValid(lead: Id, turn: Id, rows: seq<PublicWrite>, x: Extras)
    requires Fits(turn, rows, x)
    ensures WritesValid(FirstTurn(lead, turn, rows, x))
  {
  }

  /** The store holds the lead's row with token 1 and nothing else of it, and no
      key of the first turn's rows is taken. */
  ghost predicate Ready(db: Db, w: TurnWrite) {
    && w.Lead() in db.states && db.states[w.Lead()].version == 0 && db.states[w.Lead()].fencingToken == 1
    && (forall k :: k in db.events ==> k.lead != w.Lead() && db.events[k].receiptHash != w.ReceiptHash())
    && (forall k :: k in db.sources ==> k.turn.lead != w.Lead())
    && (forall k :: k in db.artifacts ==> k.turn.lead != w.Lead())
    && CommandsInsertable(db.commands, w, |w.commit.commands|) && RelaysInsertable(db.relays, w, |w.relays|)
    && JobsInsertable(db.jobs, w, |w.jobs|)
    && PublicRowsInsertable(db.authority, CancelTurns(db.outbox, w.Lead(), []), w, |w.rows|)
  }

  lemma FirstSourcesInsertable(db: Db, w: TurnWrite)
    requires Ready(db, w) && |w.receipt.sources| == 1
    ensures SourcesInsertable(db.sources, w, 1)
  {
    assert SourceInsertable(WithSources(db.sources, w, 0), w, 0);
  }

  /** The artifacts of a turn do not stand in each other's way. */
  lemma {:induction false} FirstArtifactsInsertable(db: Db, w: TurnWrite, n: nat)
    requires n <= |w.artifacts| && ArtifactIdsDistinct(w.artifacts) && forall k :: k in db.artifacts ==> k.turn.lead != w.Lead()
    requires forall i :: 0 < i < |w.artifacts| ==> w.artifacts[i].frameSequence.None?
    ensures ArtifactsInsertable(db.artifacts, w, n)
    ensures forall k :: k in WithArtifacts(db.artifacts, w, n) && k.turn.lead == w.Lead() ==>
              k.turn == w.Key() && k.index < n && WithArtifacts(db.artifacts, w, n)[k].artifact == w.artifacts[k.index]
  {
    if n > 0 {
      FirstArtifactsInsertable(db, w, n - 1);
      NextArtifactInsertable(WithArtifacts(db.artifacts, w, n - 1), w, n - 1);
    }
  }

  lemma NextArtifactInsertable(t: map<ArtifactKey, ArtifactRow>, w: TurnWrite, i: nat)
    requires i < |w.artifacts| && ArtifactIdsDistinct(w.artifacts)
    requires forall j :: 0 < j < |w.artifacts| ==> w.artifacts[j].frameSequence.None?
    requires forall k :: k in t && k.turn.lead == w.Lead() ==>
               k.turn == w.Key() && k.index < i && t[k].artifact == w.artifacts[k.index]
    ensures ArtifactInsertable(t, w, i)
  {
  }

  lemma FirstTurnInsertable(db: Db, w: TurnWrite)
    requires Ready(db, w) && |w.receipt.sources| == 1 && ArtifactIdsDistinct(w.artifacts)
    requires forall i :: 0 < i < |w.artifacts| ==> w.artifacts[i].frameSequence.None?
    requires w.superseded == []
    ensures Insertable(db, w)
  {
    FirstSourcesInsertable(db, w);
    FirstArtifactsInsertable(db, w, |w.artifacts|);
  }

  lemma AcceptsReady(db: Db, w: TurnWrite)
    requires PreCheck(w).None? && Insertable(db, w) && w.superseded == []
    requires w.expected == 0 && w.token == 1 && w.receipt.previous.None?
    requires w.Lead() in db.states && db.states[w.Lead()].version == 0 && db.states[w.Lead()].fencingToken == 1
    ensures Accepts(db, w)
  {
  }

  /** What the insertion of a first turn rests on. */
  lemma FirstTurnShape(lead: Id, turn: Id, rows: seq<PublicWrite>, x: Extras)
    ensures var w := FirstTurn(lead, turn, rows, x);
            && |w.receipt.sources| == 1 && ArtifactIdsDistinct(w.artifacts)
            && (forall i :: 0 < i < |w.artifacts| ==> w.artifacts[i].frameSequence.None?)
            && w.commit.commands == x.commands && w.relays == x.relays && w.jobs == x.jobs && w.rows == rows && w.superseded == []
            && w.expected == 0 && w.token == 1 && w.receipt.previous.None? && w.Lead() == lead && w.Key() == TurnKey(lead, turn)
  {
    ArtifactIdsDiffer(lead, turn, x);
  }

  lemma ReadyAccepts(db: Db, w: TurnWrite)
    requires Ready(db, w) && PreCheck(w).None?
    requires |w.receipt.sources| == 1 && ArtifactIdsDistinct(w.artifacts)
    requires forall i :: 0 < i < |w.artifacts| ==> w.artifacts[i].frameSequence.None?
    requires w.superseded == []
    requires w.expected == 0 && w.token == 1 && w.receipt.previous.None?
    ensures Accepts(db, w)
  {
    FirstTurnInsertable(db, w);
    AcceptsReady(db, w);
  }

  /** A ready store accepts the first turn. */
  lemma FirstTurnAccepted(db: Db, lead: Id, turn: Id, rows: seq<PublicWrite>, x: Extras)
    requires Fits(turn, rows, x) && Ready(db, FirstTurn(lead, turn, rows, x))
    ensures Accepts(db, FirstTurn(lead, turn, rows, x))
  {
    FirstTurnBinds(lead, turn, rows, x);
    FirstTurnShape(lead, turn, rows, x);
    ReadyAccepts(db, FirstTurn(lead, turn, rows, x));
  }

  // ---------------------------------------------------------- building runs

  /** A run that has reached this store. */
  ghost predicate Reaches(ws: seq<World>, steps: seq<Step>, db: Db) {
    Run(ws, steps) && ws[|steps|].db == db && |ws[|steps|].log| == |steps|
  }

  /** One more step of the run. */
  lemma Then(ws: seq<World>, steps: seq<Step>, s: Step, db: Db, e: Event) returns (longer: seq<World>, more: seq<Step>)
    requires Run(ws, steps) && |ws[|steps|].log| == |steps| && StepTo(ws[|steps|].db, s, db, e)
    ensures more == steps + [s] && |longer| == |ws| + 1 && longer[..|ws|] == ws
    ensures Reaches(longer, more, db) && Happens(longer, |steps|, e)
  {
    longer, more := ws + [World(db, ws[|steps|].log + [e])], steps + [s];
    forall i: nat | i < |more| ensures Next(longer[i], more[i], longer[i + 1]) {
      if i < |steps| { assert Next(ws[i], steps[i], ws[i + 1]); }
    }
  }

  /** A missing lead gets its row and its first token. */
  lemma Fenced(ws: seq<World>, steps: seq<Step>, lead: Id) returns (longer: seq<World>, more: seq<Step>)
    requires Run(ws, steps) && |ws[|steps|].log| == |steps| && lead !in ws[|steps|].db.states
    ensures more == steps + [OnTurn(CreateGenesis(lead)), OnTurn(AcquireFence(lead))]
    ensures |longer| == |ws| + 2 && longer[..|ws|] == ws
    ensures Reaches(longer, more, Acquired(Genesis(ws[|steps|].db, lead), lead))
  {
    var db := ws[|steps|].db;
    longer, more := Then(ws, steps, OnTurn(CreateGenesis(lead)), Genesis(db, lead), Quiet);
    ghost var once := longer;
    longer, more := Then(longer, more, OnTurn(AcquireFence(lead)), Acquired(Genesis(db, lead), lead), FenceAcquired(lead));
    assert longer[..|ws|] == once[..|ws|];
  }

  /** It commits its first turn. */
  lemma Commits(ws: seq<World>, steps: seq<Step>, lead: Id, turn: Id, rows: seq<PublicWrite>, x: Extras)
    returns (longer: seq<World>, more: seq<Step>)
    requires Run(ws, steps) && |ws[|steps|].log| == |steps|
    requires Fits(turn, rows, x) && Ready(ws[|steps|].db, FirstTurn(lead, turn, rows, x))
    ensures |more| == |steps| + 1 && |longer| == |ws| + 1 && longer[..|ws|] == ws
    ensures more == steps + [OnTurn(CommitTurn(FirstTurn(lead, turn, rows, x)))]
    ensures var w := FirstTurn(lead, turn, rows, x);
            && w.Lead() in ws[|steps|].db.states && Reaches(longer, more, Committed(ws[|steps|].db, w))
            && Happens(longer, |steps|, Advanced(w))
  {
    var w := FirstTurn(lead, turn, rows, x);
    FirstTurnAccepted(ws[|steps|].db, lead, turn, rows, x);
    FirstTurnValid(lead, turn, rows, x);
    longer, more := Then(ws, steps, OnTurn(CommitTurn(w)), Committed(ws[|steps|].db, w), Advanced(w));
  }

  // ------------------------------------------------- a claimable handoff job

  const LEAD: Id := Id("lead")
  const BUNDLE_HASH: Digest := BundlePreimageDigest("handoff", "body")

  /** A handoff as its bundle's own constructor hashes it. */
  const HANDOFF: JobWrite := JobWrite(
    Id("job"), HandoffRelay, HandoffJson("body", BUNDLE_HASH), BUNDLE_HASH, None, None, OpaqueDigest("target"))

  const HANDOFFS: Extras := Extras([], [], [HANDOFF])

  const HANDOFF_TURN: TurnWrite := FirstTurn(LEAD, Id("turn"), [], HANDOFFS)

  function HandoffRow(): JobRow {
    NewJob(HANDOFF_TURN, HANDOFF)
  }

  lemma HandoffReady(db: Db)
    requires db == Acquired(Genesis(EMPTY_DB, LEAD), LEAD)
    ensures Fits(Id("turn"), [], HANDOFFS) && Ready(db, HANDOFF_TURN)
    ensures Committed(db, HANDOFF_TURN).jobs == map[HANDOFF.jobId := HandoffRow()]
  {
    assert JobInsertable(WithJobs(db.jobs, HANDOFF_TURN, 0), HANDOFF_TURN, 0);
    assert WithJobs(db.jobs, HANDOFF_TURN, 1) == WithJobs(db.jobs, HANDOFF_TURN, 0)[HANDOFF.jobId := HandoffRow()];
  }

  /** A worker leases the only job there is. */
  lemma OnlyJobClaimed(db: Db, p: Id, row: JobRow, worker: Id, now: Instant, ttl: int)
    requires db.jobs == map[p := row] && !BadLease(now, ttl)
    requires row.queue == FRESH_QUEUE && row.content.kind == HandoffRelay
    requires HashRefusal(HandoffBundleHash(row.content.bundle), row.content.artifactHash).None?
    ensures StepTo(db, OnJob(ClaimJob(worker, now, ttl)), db.(jobs := LeasedJobs(db.jobs, p, worker, now, now + ttl)), JobClaimed(p))
  {
    assert ReclaimedJobs(db.jobs, now) == db.jobs;
    OnlyJobFirst(db.jobs, p, row);
  }

  lemma OnlyJobFirst(t: Jobs, p: Id, row: JobRow)
    requires t == map[p := row] && row.queue == FRESH_QUEUE && row.content.kind == HandoffRelay
    requires HashRefusal(HandoffBundleHash(row.content.bundle), row.content.artifactHash).None?
    ensures FirstHandoff(t, p) && JobRefusal(t, p).None?
  {
    Text.LessIsIrreflexive(p.text);
  }

  lemma HandoffCommitted() returns (ws: seq<World>, steps: seq<Step>)
    ensures |ws| == 4 && |steps| == 3 && |ws[3].log| == 3 && Run(ws, steps)
    ensures Happens(ws, 2, Advanced(HANDOFF_TURN)) && ws[3].db.jobs == map[HANDOFF.jobId := HandoffRow()]
  {
    ws, steps := Fenced([World(EMPTY_DB, [])], [], LEAD);
    HandoffReady(ws[2].db);
    ws, steps := Commits(ws, steps, LEAD, Id("turn"), [], HANDOFFS);
  }

  /** The committed job and its claim. */
  lemma HandoffRun() returns (ws: seq<World>, steps: seq<Step>)
    ensures Run(ws, steps) && |steps| == 4
    ensures Happens(ws, 2, Advanced(HANDOFF_TURN)) && Happens(ws, 3, JobClaimed(HANDOFF.jobId))
    ensures ws[3].db.jobs == map[HANDOFF.jobId := HandoffRow()]
    ensures ws[4].db.jobs == LeasedJobs(ws[3].db.jobs, HANDOFF.jobId, Id("worker"), 0, 1)
  {
    ws, steps := HandoffCommitted();
    ghost var before := ws;
    OnlyJobClaimed(ws[3].db, HANDOFF.jobId, HandoffRow(), Id("worker"), 0, 1);
    ws, steps := Then(ws, steps, OnJob(ClaimJob(Id("worker"), 0, 1)),
                      ws[3].db.(jobs := LeasedJobs(ws[3].db.jobs, HANDOFF.jobId, Id("worker"), 0, 1)), JobClaimed(HANDOFF.jobId));
    assert ws[3] == before[3];
  }

  /** The only job of a turn carries a claimable bundle, was not written with its
      operation id, and is claimed in the step after the commit. */
  lemma ClaimSpoilsTurn(ws: seq<World>, steps: seq<Step>, i: nat, w: TurnWrite)
    requires Run(ws, steps) && i + 2 < |ws| && Happens(ws, i, Advanced(w)) && |w.jobs| == 1
    requires HashRefusal(HandoffBundleHash(w.jobs[0].bundle), w.jobs[0].artifactHash).None?
    requires w.jobs[0].target != OperationDigest(true, w.jobs[0].artifactHash, w.ReceiptHash())
    requires var p := w.jobs[0].jobId;
             && p in ws[i + 1].db.jobs && ws[i + 1].db.jobs[p].queue.claimCount == 0
             && p in ws[i + 2].db.jobs && ws[i + 2].db.jobs[p].queue.claimCount == 1
    ensures !WellFormed(ws[i + 1].db) && !WellFormed(ws[i + 2].db)
    ensures Succeeds(ws[i + 1].db, w) && !Succeeds(ws[i + 2].db, w)
  {
    ClaimableJobPoisonsScan(ws, steps, i, i + 1, w, 0);
    ClaimableJobPoisonsScan(ws, steps, i, i + 2, w, 0);
    OriginalCallReplays(ws, steps, i, i + 1, w);
    OriginalCallReplays(ws, steps, i, i + 2, w);
  }

  /** An ordinary run: one turn hands off, and a worker claims the job. The scan
      rejects the store from the commit on, and the call that committed the turn
      replays until the claim and never after it. */
  lemma ClaimedHandoff() returns (ws: seq<World>, steps: seq<Step>)
    ensures Run(ws, steps) && |steps| == 4
    ensures Happens(ws, 2, Advanced(HANDOFF_TURN)) && Happens(ws, 3, JobClaimed(HANDOFF.jobId))
    ensures !WellFormed(ws[3].db) && !WellFormed(ws[4].db)
    ensures Succeeds(ws[3].db, HANDOFF_TURN) && !Succeeds(ws[4].db, HANDOFF_TURN)
  {
    ws, steps := HandoffRun();
    assert HANDOFF_TURN.jobs == [HANDOFF];
    ClaimSpoilsTurn(ws, steps, 2, HANDOFF_TURN);
  }

  // -------------------------------------------------- a reservation relay

  const RESERVE: Command := Command(Id("command"), Reservation, Id("workflow"), "reserve")
  const RESERVATION_HASH: Digest := BundlePreimageDigest("reservation", "body")

  /** A reservation as its bundle's own constructor hashes it. */
  const RELAY: RelayWrite := RelayWrite(
    Id("relay"), Id("command"), ReservationJson("body", RESERVATION_HASH), RESERVATION_HASH)

  const RELAYS: Extras := Extras([RESERVE], [RELAY], [])

  const RELAY_TURN: TurnWrite := FirstTurn(LEAD, Id("turn"), [], RELAYS)

  function RelayOf(): RelayRow {
    NewRelay(RELAY_TURN, RELAY)
  }

  lemma RelayReady(db: Db)
    requires db == Acquired(Genesis(EMPTY_DB, LEAD), LEAD)
    ensures Fits(Id("turn"), [], RELAYS) && Ready(db, RELAY_TURN)
    ensures Committed(db, RELAY_TURN).relays == map[RELAY.relayId := RelayOf()]
  {
    FirstTurnShape(LEAD, Id("turn"), [], RELAYS);
    assert RELAYS.commands[0].commandId == RELAY.commandId;
    assert CommandInsertable(WithCommands(db.commands, RELAY_TURN, 0), RELAY_TURN, 0);
    assert RelayInsertable(WithRelays(db.relays, RELAY_TURN, 0), RELAY_TURN, 0);
    assert WithRelays(db.relays, RELAY_TURN, 1) == WithRelays(db.relays, RELAY_TURN, 0)[RELAY.relayId := RelayOf()];
  }

  /** A worker leases the only relay there is. */
  lemma OnlyRelayClaimed(db: Db, p: Id, row: RelayRow, worker: Id, now: Instant, ttl: int)
    requires db.relays == map[p := row] && !BadLease(now, ttl) && row.queue == FRESH_QUEUE
    ensures StepTo(db, OnRelay(ClaimRelay(worker, now, ttl)),
                   db.(relays := LeasedRelays(db.relays, p, worker, now, now + ttl)), RelayClaimed(p))
  {
    assert ReclaimedRelays(db.relays, now) == db.relays;
    Text.LessIsIrreflexive(p.text);
    assert FirstRelay(db.relays, p);
  }

  /** The i-th step is the only commit. */
  predicate OnlyCommit(steps: seq<Step>, i: nat, w: TurnWrite) {
    && i < |steps| && steps[i] == OnTurn(CommitTurn(w))
    && forall k :: 0 <= k < |steps| && k != i ==> !(steps[k].OnTurn? && steps[k].turn.CommitTurn?)
  }

  /** The lead's first row and first token. */
  lemma FencedFirst() returns (ws: seq<World>, steps: seq<Step>)
    ensures |ws| == 3 && steps == [OnTurn(CreateGenesis(LEAD)), OnTurn(AcquireFence(LEAD))]
    ensures Reaches(ws, steps, Acquired(Genesis(EMPTY_DB, LEAD), LEAD))
  {
    ws, steps := Fenced([World(EMPTY_DB, [])], [], LEAD);
  }

  lemma FreshRelay()
    ensures RelayOf().queue == FRESH_QUEUE
  {
  }

  lemma RelayWritten() returns (ws: seq<World>, steps: seq<Step>)
    ensures |ws| == 4 && Run(ws, steps) && |ws[3].log| == 3
    ensures steps == [OnTurn(CreateGenesis(LEAD)), OnTurn(AcquireFence(LEAD))] + [OnTurn(CommitTurn(RELAY_TURN))]
    ensures Happens(ws, 2, Advanced(RELAY_TURN)) && ws[3].db.relays == map[RELAY.relayId := RelayOf()]
  {
    ws, steps := FencedFirst();
    RelayReady(ws[2].db);
    ws, steps := Commits(ws, steps, LEAD, Id("turn"), [], RELAYS);
  }

  lemma CommitIsThird(steps: seq<Step>, w: TurnWrite)
    requires steps == [OnTurn(CreateGenesis(LEAD)), OnTurn(AcquireFence(LEAD))] + [OnTurn(CommitTurn(w))]
    ensures OnlyCommit(steps, 2, w)
  {
  }

  lemma RelayCommitted() returns (ws: seq<World>, steps: seq<Step>)
    ensures |ws| == 4 && |steps| == 3 && |ws[3].log| == 3 && Run(ws, steps) && OnlyCommit(steps, 2, RELAY_TURN)
    ensures Happens(ws, 2, Advanced(RELAY_TURN)) && ws[3].db.relays == map[RELAY.relayId := RelayOf()]
    ensures RelayOf().queue == FRESH_QUEUE
  {
    ws, steps := RelayWritten();
    FreshRelay();
    CommitIsThird(steps, RELAY_TURN);
  }

  /** A worker claims the only relay of a run. */
  lemma ThenClaims(ws: seq<World>, steps: seq<Step>, p: Id, row: RelayRow, i: nat, w: TurnWrite)
    returns (longer: seq<World>, more: seq<Step>)
    requires Run(ws, steps) && |ws[|steps|].log| == |steps| && ws[|steps|].db.relays == map[p := row] && row.queue == FRESH_QUEUE
    requires OnlyCommit(steps, i, w) && Happens(ws, i, Advanced(w))
    ensures |more| == |steps| + 1 && OnlyCommit(more, i, w) && Run(longer, more)
    ensures Happens(longer, i, Advanced(w)) && Happens(longer, |steps|, RelayClaimed(p))
  {
    var db := ws[|steps|].db;
    OnlyRelayClaimed(db, p, row, Id("worker"), 0, 1);
    longer, more := Then(ws, steps, OnRelay(ClaimRelay(Id("worker"), 0, 1)),
                         db.(relays := LeasedRelays(db.relays, p, Id("worker"), 0, 1)), RelayClaimed(p));
    assert longer[i + 1] == ws[i + 1];
  }

  lemma RelayRun() returns (ws: seq<World>, steps: seq<Step>)
    ensures Run(ws, steps) && |steps| == 4 && OnlyCommit(steps, 2, RELAY_TURN)
    ensures Happens(ws, 2, Advanced(RELAY_TURN)) && Happens(ws, 3, RelayClaimed(RELAY.relayId))
  {
    ws, steps := RelayCommitted();
    ws, steps := ThenClaims(ws, steps, RELAY.relayId, RelayOf(), 2, RELAY_TURN);
  }

  /** Only a commit call can advance a lead. */
  lemma AdvanceIsCommit(ws: seq<World>, steps: seq<Step>, i: nat, w: TurnWrite)
    requires Run(ws, steps) && Happens(ws, i, Advanced(w))
    ensures i < |steps| && steps[i] == OnTurn(CommitTurn(w))
  {
    RunTakesStep(ws, steps, i, Advanced(w));
    if !steps[i].OnTurn? { OtherStepsKeepLeads(ws[i].db, steps[i], ws[i + 1].db, Advanced(w)); }
    AdvanceStep(ws[i].db, steps[i].turn, ws[i + 1].db, w);
  }

  lemma AdvanceStep(db: Db, s: TurnStep, db': Db, w: TurnWrite)
    requires TurnStepTo(db, s, db', Advanced(w))
    ensures s == CommitTurn(w)
  {
  }

  /** An ordinary run: one turn reserves, and a worker claims the relay. The scan
      accepts the store at every moment. */
  lemma ClaimedReservation() returns (ws: seq<World>, steps: seq<Step>)
    ensures Run(ws, steps) && |steps| == 4
    ensures Happens(ws, 2, Advanced(RELAY_TURN)) && Happens(ws, 3, RelayClaimed(RELAY.relayId))
    ensures WellFormed(ws[3].db) && WellFormed(ws[4].db)
  {
    ws, steps := RelayRun();
    forall i: nat, w | Happens(ws, i, Advanced(w)) ensures BundlesScan(w) {
      AdvanceIsCommit(ws, steps, i, w);
      FirstTurnShape(LEAD, Id("turn"), [], RELAYS);
      assert i == 2 && w == RELAY_TURN;
    }
    ReachableStoreScansByHash(ws, steps, 3);
    ReachableStoreScansByHash(ws, steps, 4);
  }

  // ------------------------------------------------ a turn id two leads share

  const OTHER: Id := Id("other")
  const SHARED: Id := Id(COMPLETION_TURN + "shared")

  const TERMS: AuthTerms := AuthTerms(
    ConversationTest, None, None, OpaqueDigest("capability"), OpaqueDigest("effect"), OpaqueDigest("binding"))
  const KEY: AuthKey := AuthKey(Id("authorization"), Id("subject"), Id("channel"), 1, Id("allocation"))
  const ALLOCATION: AuthRow := AuthRow(false, TERMS, Some(0), Available, None, 0, None)

  /** One chunk of a completion turn. */
  function ChunkWrite(): PublicWrite {
    PublicWrite(Id("row"), PublicReplyChunk(SHARED, 0, "done", ClosureOf(SHARED).hash, AuthenticatedSystem),
                Id("idempotency"), Id("channel"), KEY, TERMS, OpaqueDigest("effective"), 100)
  }

  function CompletionTurn(): TurnWrite {
    FirstTurn(LEAD, SHARED, [ChunkWrite()], NOTHING)
  }

  function OtherTurn(): TurnWrite {
    FirstTurn(OTHER, SHARED, [], NOTHING)
  }

  /** One public row whose allocation is free stands in nobody's way in an empty store. */
  lemma RowReady(db: Db, w: TurnWrite)
    requires w.Lead() in db.states && db.states[w.Lead()].version == 0 && db.states[w.Lead()].fencingToken == 1
    requires db.events == map[] && db.sources == map[] && db.artifacts == map[] && db.outbox == map[]
    requires w.commit.commands == [] && w.relays == [] && w.jobs == [] && |w.rows| == 1
    requires AllocationFree(db.authority, w, 0) && RowIdUnbound(db.authority, w, 0)
    ensures Ready(db, w)
  {
    var outbox := CancelTurns(db.outbox, w.Lead(), []);
    assert outbox == map[];
    assert PublicInsertable(WithPublic(outbox, w, 0), w, 0);
  }

  lemma ChunkFits()
    ensures Fits(SHARED, [ChunkWrite()], NOTHING)
  {
  }

  lemma AllocationReady(auth: map<AuthKey, AuthRow>, w: TurnWrite)
    requires auth == map[KEY := ALLOCATION] && w.rows == [ChunkWrite()]
    ensures AllocationFree(auth, w, 0) && RowIdUnbound(auth, w, 0)
  {
  }

  lemma CompletionReady(db: Db)
    requires db == Acquired(Genesis(EMPTY_DB.(authority := map[KEY := ALLOCATION]), LEAD), LEAD)
    ensures Fits(SHARED, [ChunkWrite()], NOTHING) && Ready(db, CompletionTurn())
  {
    ChunkFits();
    FirstTurnShape(LEAD, SHARED, [ChunkWrite()], NOTHING);
    assert CompletionTurn().rows == [ChunkWrite()];
    AllocationReady(db.authority, CompletionTurn());
    RowReady(db, CompletionTurn());
  }

  lemma LeadsDiffer()
    ensures LEAD != OTHER && TurnKey(LEAD, SHARED) != TurnKey(OTHER, SHARED)
  {
    assert |LEAD.text| == 4 && |OTHER.text| == 5;
  }

  /** What the completion leaves: its event and its one unsent chunk. */
  ghost predicate HoldsCompletion(db: Db) {
    && db.events == map[TurnKey(LEAD, SHARED) := NewEvent(CompletionTurn())]
    && db.outbox == map[Id("row") := NewPublic(CompletionTurn(), 0)]
    && db.states.Keys == {LEAD} && db.jobs == map[]
    && (forall k :: k in db.sources ==> k.turn == TurnKey(LEAD, SHARED))
    && (forall k :: k in db.artifacts ==> k.turn == TurnKey(LEAD, SHARED))
  }

  lemma CompletionCommitted(db: Db)
    requires db == Acquired(Genesis(EMPTY_DB.(authority := map[KEY := ALLOCATION]), LEAD), LEAD)
    ensures HoldsCompletion(Committed(db, CompletionTurn()))
  {
    var w, outbox := CompletionTurn(), CancelTurns(db.outbox, LEAD, []);
    assert outbox == map[] && w.rows == [ChunkWrite()];
    assert WithPublic(outbox, w, 1) == WithPublic(outbox, w, 0)[w.rows[0].rowId := NewPublic(w, 0)];
    OnlyTurnsSources(w, |w.receipt.sources|);
    OnlyTurnsArtifacts(w, |w.artifacts|);
  }

  lemma {:induction false} OnlyTurnsSources(w: TurnWrite, n: nat)
    requires n <= |w.receipt.sources|
    ensures forall k :: k in WithSources(map[], w, n) ==> k.turn == w.Key()
  {
    if n > 0 { OnlyTurnsSources(w, n - 1); }
  }

  lemma {:induction false} OnlyTurnsArtifacts(w: TurnWrite, n: nat)
    requires n <= |w.artifacts|
    ensures forall k :: k in WithArtifacts(map[], w, n) ==> k.turn == w.Key()
  {
    if n > 0 { OnlyTurnsArtifacts(w, n - 1); }
  }

  lemma ReceiptsDiffer()
    ensures CompletionTurn().ReceiptHash() != OtherTurn().ReceiptHash()
  {
    LeadsDiffer();
    assert CompletionTurn().receipt.stateHash.state.leadKey == LEAD && OtherTurn().receipt.stateHash.state.leadKey == OTHER;
  }

  /** A turn without jobs and public rows stands in nobody's way. */
  lemma BareReady(db: Db, w: TurnWrite)
    requires w.Lead() in db.states && db.states[w.Lead()].version == 0 && db.states[w.Lead()].fencingToken == 1
    requires forall k :: k in db.events ==> k.lead != w.Lead() && db.events[k].receiptHash != w.ReceiptHash()
    requires forall k :: k in db.sources ==> k.turn.lead != w.Lead()
    requires forall k :: k in db.artifacts ==> k.turn.lead != w.Lead()
    requires w.commit.commands == [] && w.relays == [] && w.jobs == [] && w.rows == []
    ensures Ready(db, w)
  {
  }

  lemma OtherReady(db: Db, w: TurnWrite)
    requires HoldsCompletion(db) && w.Lead() == OTHER
    requires w.commit.commands == [] && w.relays == [] && w.jobs == [] && w.rows == []
    requires w.ReceiptHash() != CompletionTurn().ReceiptHash()
    ensures Ready(Acquired(Genesis(db, OTHER), OTHER), w)
  {
    LeadsDiffer();
    BareReady(Acquired(Genesis(db, OTHER), OTHER), w);
  }

  /** What is left when both leads have committed. */
  ghost predicate HoldsBoth(db: Db) {
    && db.outbox == map[Id("row") := NewPublic(CompletionTurn(), 0)]
    && TurnsNamed(db.events, SHARED) == {TurnKey(LEAD, SHARED), TurnKey(OTHER, SHARED)}
  }

  lemma OtherCommitted(db: Db, w: TurnWrite)
    requires HoldsCompletion(db) && w.Key() == TurnKey(OTHER, SHARED) && w.rows == [] && w.superseded == []
    ensures HoldsBoth(Committed(Acquired(Genesis(db, OTHER), OTHER), w))
  {
    assert CancelTurns(db.outbox, OTHER, []) == db.outbox;
    assert WithPublic(db.outbox, w, 0) == db.outbox;
  }

  lemma SharedIsRefused(db: Db)
    requires HoldsBoth(db)
    ensures IsUnattemptedCompletion(db.outbox, TurnKey(LEAD, SHARED))
    ensures forall w: TurnWrite :: SHARED in w.superseded ==> !Accepts(db, w)
  {
    assert Id("row") in RowsOf(db.outbox, TurnKey(LEAD, SHARED));
    LeadsDiffer();
    assert |TurnsNamed(db.events, SHARED)| == 2;
    forall w: TurnWrite | SHARED in w.superseded ensures !Accepts(db, w) {
      var i :| 0 <= i < |w.superseded| && w.superseded[i] == SHARED;
      SharedTurnNeverSuperseded(db, w, i);
    }
  }

  lemma OtherCommits(ws: seq<World>, steps: seq<Step>, before: Db) returns (longer: seq<World>, more: seq<Step>)
    requires HoldsCompletion(before) && Reaches(ws, steps, Acquired(Genesis(before, OTHER), OTHER))
    ensures |more| == |steps| + 1 && |longer| == |ws| + 1 && longer[..|ws|] == ws
    ensures Run(longer, more) && Happens(longer, |steps|, Advanced(OtherTurn())) && HoldsBoth(longer[|more|].db)
  {
    FirstTurnShape(OTHER, SHARED, [], NOTHING);
    ReceiptsDiffer();
    OtherReady(before, OtherTurn());
    OtherCommitted(before, OtherTurn());
    longer, more := Commits(ws, steps, OTHER, SHARED, [], NOTHING);
  }

  lemma OtherFences(ws: seq<World>, steps: seq<Step>) returns (longer: seq<World>, more: seq<Step>)
    requires Run(ws, steps) && |ws[|steps|].log| == |steps| && HoldsCompletion(ws[|steps|].db)
    ensures |more| == |steps| + 2 && |longer| == |ws| + 2 && longer[..|ws|] == ws
    ensures Reaches(longer, more, Acquired(Genesis(ws[|steps|].db, OTHER), OTHER))
  {
    LeadsDiffer();
    longer, more := Fenced(ws, steps, OTHER);
  }

  /** One lead's completion and then another lead's turn of the same id. */
  lemma SharedRun() returns (ws: seq<World>, steps: seq<Step>)
    ensures Run(ws, steps) && |steps| == 7
    ensures Happens(ws, 3, Advanced(CompletionTurn())) && Happens(ws, 6, Advanced(OtherTurn()))
    ensures HoldsCompletion(ws[4].db) && HoldsBoth(ws[7].db)
  {
    ws, steps := CompletionRun();
    ghost var four := ws;
    ws, steps := OtherFences(ws, steps);
    ghost var six := ws;
    ws, steps := OtherCommits(ws, steps, four[4].db);
    assert ws[4] == six[4] == four[4];
  }

  lemma CompletionRun() returns (ws: seq<World>, steps: seq<Step>)
    ensures |ws| == 5 && |steps| == 4 && Run(ws, steps) && |ws[4].log| == 4 && Happens(ws, 3, Advanced(CompletionTurn()))
    ensures HoldsCompletion(ws[4].db)
  {
    assert KEY.allocationId != Id("__header__") by { assert |KEY.allocationId.text| == 10 && |"__header__"| == 10; }
    ws, steps := Then([World(EMPTY_DB, [])], [], OnTurn(InstallAllocation(KEY, ALLOCATION)),
                      EMPTY_DB.(authority := map[KEY := ALLOCATION]), Quiet);
    ws, steps := Fenced(ws, steps, LEAD);
    CompletionReady(ws[3].db);
    CompletionCommitted(ws[3].db);
    ws, steps := Commits(ws, steps, LEAD, SHARED, [ChunkWrite()], NOTHING);
  }

  /** A run in which two leads commit one turn id. Before the second commit the
      completion can be looked up; after it the completion is still unsent in every
      chunk, and yet no commit whatsoever that supersedes it is accepted. */
  lemma SharedCompletion() returns (ws: seq<World>, steps: seq<Step>)
    ensures Run(ws, steps) && |steps| == 7
    ensures Happens(ws, 3, Advanced(CompletionTurn())) && Happens(ws, 6, Advanced(OtherTurn()))
    ensures LoadTurnReceipt(ws[4].db.events, SHARED) == Ok(Some(CompletionTurn().receipt))
    ensures IsUnattemptedCompletion(ws[7].db.outbox, TurnKey(LEAD, SHARED))
    ensures forall w: TurnWrite :: SHARED in w.superseded ==> !Accepts(ws[7].db, w)
  {
    ws, steps := SharedRun();
    SharedIsRefused(ws[7].db);
    RunInv(ws, steps, 4);
    CompletionLoads(ws[4].db);
  }

  lemma CompletionLoads(db: Db)
    requires HoldsCompletion(db) && Linear(db.states, db.events)
    ensures LoadTurnReceipt(db.events, SHARED) == Ok(Some(CompletionTurn().receipt))
  {
    assert TurnsNamed(db.events, SHARED) == {TurnKey(LEAD, SHARED)};
    EventsAreInHistory(db.states, db.events, TurnKey(LEAD, SHARED));
    OnlyTurnLoads(db.states, db.events, SHARED, TurnKey(LEAD, SHARED));
  }
}
