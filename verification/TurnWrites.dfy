/** The arguments of one turn commit, and the checks made on them before the
    database is touched. */
module TurnWrites {
  import opened Options
  import opened Tables
  import opened Ordering

  datatype RelayWrite = RelayWrite(relayId: Id, commandId: Id, bundle: BundleJson, bundleHash: Digest)

  datatype JobWrite = JobWrite(
    jobId: Id, kind: JobKind, bundle: BundleJson, artifactHash: Digest,
    qualificationId: Option<Id>, epoch: Option<nat>, target: Digest)

  datatype PublicWrite = PublicWrite(
    rowId: Id, chunk: PublicReplyChunk, idempotencyKey: Id, channelId: Id,
    key: AuthKey, terms: AuthTerms, effectiveDigest: Digest, deadline: Instant)

  datatype TurnWrite = TurnWrite(
    expected: nat, token: nat, commit: BoundaryCommit, receipt: TurnReceipt,
    artifacts: seq<Artifact>, relays: seq<RelayWrite>, jobs: seq<JobWrite>, rows: seq<PublicWrite>,
    committedAt: Instant, superseded: seq<Id>)
  {
    function Lead(): Id { commit.state.leadKey }
    function Key(): TurnKey { TurnKey(commit.state.leadKey, receipt.turn) }
    function ReceiptHash(): Digest { ReceiptDigest(receipt) }
  }

  // -------------------------------------------------- constructor validity

  function Ids<T>(rows: seq<(Id, T)>): seq<Id> {
    seq(|rows|, i requires 0 <= i < |rows| => rows[i].0)
  }

  /** What `TurnReceipt.__post_init__` guarantees of every receipt. */
  predicate ReceiptValid(r: TurnReceipt) {
    && r.stateVersion >= 1 && r.finalSeq >= 1
    && |r.sources| > 0
    && (forall i, j :: 0 <= i < j < |r.sources| ==> r.sources[i].sourceId != r.sources[j].sourceId)
    && (forall i, j :: 0 <= i < j < |r.readRows| ==> r.readRows[i].0 != r.readRows[j].0)
    && (forall i :: 0 <= i < |r.readRows| ==>
          r.readRows[i].1.ReadBytes? && r.readRows[i].2 == ArtifactDigest(ReadObservation, r.readRows[i].1))
    && (forall i, j :: 0 <= i < j < |r.chunks| ==> r.chunks[i].0 != r.chunks[j].0)
    && (forall i :: 0 <= i < |r.chunks| ==>
          r.chunks[i].1 == i && r.chunks[i].2.turn == r.turn && r.chunks[i].2.ordinal == i
          && r.chunks[i].3 == ChunkDigest(r.chunks[i].2))
    && Distinct(Ids(r.commandRows)) && Distinct(Ids(r.relayRows)) && Distinct(Ids(r.jobRows))
    && (r.e2e.Some? ==>
          r.e2e.value.admissionSequence >= 1 && r.e2e.value.admissionRevision >= 1
          && r.e2e.value.commitFenceToken >= 1 && r.e2e.value.generation >= 1
          && |r.e2e.value.allocationIds| > 0 && Distinct(r.e2e.value.allocationIds))
  }

  /** A job's qualification and its epoch come together. */
  predicate EpochCheck(j: JobWrite) {
    && (j.qualificationId.None? <==> j.epoch.None?)
    && (j.epoch.Some? ==> j.epoch.value >= 1)
  }

  /** What the constructors of the four write types guarantee. */
  predicate WritesValid(w: TurnWrite) {
    && w.token >= 1
    && ReceiptValid(w.receipt)
    && (forall i :: 0 <= i < |w.artifacts| ==> !w.artifacts[i].payload.NoncanonicalBytes?)
    && (forall i :: 0 <= i < |w.relays| ==> !w.relays[i].bundle.NoncanonicalJson?)
    && (forall i :: 0 <= i < |w.jobs| ==> !w.jobs[i].bundle.NoncanonicalJson? && EpochCheck(w.jobs[i]))
    && (forall i :: 0 <= i < |w.rows| ==> TermsCheck(w.rows[i].terms))
  }

  // -------------------------------------------------------- artifact graph

  function OfKind(artifacts: seq<Artifact>, kind: ArtifactKind): seq<Artifact> {
    if artifacts == [] then []
    else (if artifacts[0].kind == kind then [artifacts[0]] else []) + OfKind(artifacts[1..], kind)
  }

  function Payloads(artifacts: seq<Artifact>): seq<Payload> {
    seq(|artifacts|, i requires 0 <= i < |artifacts| => artifacts[i].payload)
  }

  function By(chunks: seq<PublicReplyChunk>, author: Author): seq<PublicReplyChunk> {
    if chunks == [] then []
    else (if chunks[0].author == author then [chunks[0]] else []) + By(chunks[1..], author)
  }

  function ReceiptReads(r: TurnReceipt): seq<Payload> {
    seq(|r.readRows|, i requires 0 <= i < |r.readRows| => r.readRows[i].1)
  }

  function ReceiptChunks(r: TurnReceipt): seq<PublicReplyChunk> {
    seq(|r.chunks|, i requires 0 <= i < |r.chunks| => r.chunks[i].2)
  }

  function CommandRowsOf(commands: seq<Command>): seq<(Id, Digest)> {
    seq(|commands|, i requires 0 <= i < |commands| =>
      (commands[i].commandId, CommandDigest(Canonical(commands[i]))))
  }

  /** Frames are numbered 1, 2, ... and each artifact repeats its frame's number. */
  predicate FramesOk(frames: seq<Artifact>) {
    forall i :: 0 <= i < |frames| ==>
      frames[i].payload.FrameBytes? && frames[i].payload.sequence == i + 1
      && frames[i].frameSequence == Some(i + 1)
  }

  predicate DecisionOk(r: TurnReceipt, decision: Artifact, expected: Option<BoundaryCommit>) {
    && decision.hash == r.kernelDecisionHash
    && match decision.payload
       case CommitmentBytes(stateHash, version, rows) =>
         && version >= 1 && Distinct(Ids(rows))
         && stateHash == r.stateHash && version == r.stateVersion && rows == r.commandRows
         && (expected.Some? ==>
               StateDigest(expected.value.state) == stateHash && expected.value.state.version == version
               && CommandRowsOf(expected.value.commands) == rows)
       case DecisionBytes(d) =>
         && StateDigest(d.state) == r.stateHash && d.state.version == r.stateVersion
         && CommandRowsOf(d.commands) == r.commandRows
         && (expected.Some? ==> d.state == expected.value.state && d.commands == expected.value.commands)
       case _ => false
  }

  predicate ProposalOk(r: TurnReceipt, artifacts: seq<Artifact>, chunks: seq<PublicReplyChunk>,
                       proposal: Artifact, closure: Artifact, last: Artifact)
    requires proposal.payload.ProposalBytes? && closure.payload.ClosureBytes? && last.payload.FrameBytes?
  {
    var p, c := proposal.payload.proposal, closure.payload.closure;
    && p.readRows == Payloads(OfKind(artifacts, ReadObservation)) == ReceiptReads(r)
    && p.facts == Payloads(OfKind(artifacts, FactArtifact))
    && p.tools == Payloads(OfKind(artifacts, ToolProposal))
    && p.learning == Payloads(OfKind(artifacts, LearningProposal))
    && p.chunks == By(chunks, Maya)
    && chunks == By(chunks, Maya) + By(chunks, AuthenticatedSystem)
    && chunks == ReceiptChunks(r)
    && p.turn == r.turn == c.turn
    && p.intent == c.intent
    && p.closureHash == closure.hash
    && p.finalCommitmentHash == last.hash
    && p.finalSeq == last.payload.sequence == c.finalSeq == r.finalSeq
    && p.finalMac == r.transcriptMac
    && p.runtimeGraphDigest == r.graphDigest
    && p.route == c.route && p.replyType == c.replyType
    && proposal.hash == r.mayaProposalHash
    && (proposal.frameReference.Some? ==>
          proposal.frameReference.value == last.hash && p.projectionHash == Some(r.projectionDigest))
  }

  /** The artifact graph check: transcript, closure, proposal and decision
      describe each other and the receipt. `expected` is the commit being
      written, or nothing when a stored turn is re-checked. */
  predicate GraphOk(r: TurnReceipt, artifacts: seq<Artifact>, chunks: seq<PublicReplyChunk>,
                    expected: Option<BoundaryCommit>)
  {
    var frames := OfKind(artifacts, FrameCommitment);
    var closures, proposals, decisions :=
      OfKind(artifacts, MayaClosure), OfKind(artifacts, MayaProposal), OfKind(artifacts, KernelDecision);
    && |closures| == 1 && |proposals| == 1 && |decisions| == 1 && |frames| > 0
    && (forall i :: 0 <= i < |artifacts| ==>
          artifacts[i].hash == ArtifactDigest(artifacts[i].kind, artifacts[i].payload))
    && FramesOk(frames)
    && closures[0].payload.ClosureBytes? && proposals[0].payload.ProposalBytes?
    && ProposalOk(r, artifacts, chunks, proposals[0], closures[0], frames[|frames| - 1])
    && (forall i :: 0 <= i < |chunks| ==>
          chunks[i].ordinal == i && chunks[i].turn == r.turn && chunks[i].closureHash == closures[0].hash)
    && DecisionOk(r, decisions[0], expected)
  }

  // -------------------------------------------------------------- precheck

  function ReadRows(artifacts: seq<Artifact>): seq<(Id, Payload, Digest)> {
    var found := OfKind(artifacts, ReadObservation);
    seq(|found|, i requires 0 <= i < |found| => (found[i].artifactId, found[i].payload, found[i].hash))
  }

  function ChunksOf(rows: seq<PublicWrite>): seq<PublicReplyChunk> {
    seq(|rows|, i requires 0 <= i < |rows| => rows[i].chunk)
  }

  function ChunkRows(rows: seq<PublicWrite>): seq<(Id, nat, PublicReplyChunk, Digest)> {
    seq(|rows|, i requires 0 <= i < |rows| =>
      (rows[i].rowId, rows[i].chunk.ordinal, rows[i].chunk, ChunkDigest(rows[i].chunk)))
  }

  function RelayRows(relays: seq<RelayWrite>): seq<(Id, Digest)> {
    seq(|relays|, i requires 0 <= i < |relays| => (relays[i].relayId, relays[i].bundleHash))
  }

  function JobRows(jobs: seq<JobWrite>): seq<(Id, Digest)> {
    seq(|jobs|, i requires 0 <= i < |jobs| => (jobs[i].jobId, jobs[i].artifactHash))
  }

  predicate CommitIdsDistinct(commands: seq<Command>) {
    forall i, j :: 0 <= i < j < |commands| ==> commands[i].commandId != commands[j].commandId
  }

  predicate IsCommitted(commandId: Id, commands: seq<Command>) {
    exists j :: 0 <= j < |commands| && commands[j].commandId == commandId
  }

  predicate ArtifactIdsDistinct(artifacts: seq<Artifact>) {
    forall i, j :: 0 <= i < j < |artifacts| ==> artifacts[i].artifactId != artifacts[j].artifactId
  }

  /** The receipt names exactly the rows being written. */
  predicate ReceiptBinds(w: TurnWrite) {
    var r := w.receipt;
    && r.committedAt == w.committedAt
    && r.stateVersion == w.commit.state.version
    && r.stateHash == StateDigest(w.commit.state)
    && r.commandRows == CommandRowsOf(w.commit.commands)
    && CommitIdsDistinct(w.commit.commands)
    && ArtifactIdsDistinct(w.artifacts)
    && r.readRows == ReadRows(w.artifacts)
    && (forall i :: 0 <= i < |w.relays| ==> IsCommitted(w.relays[i].commandId, w.commit.commands))
    && r.relayRows == RelayRows(w.relays)
    && r.jobRows == JobRows(w.jobs)
    && r.chunks == ChunkRows(w.rows)
    && (forall i :: 0 <= i < |w.rows| ==>
          w.rows[i].chunk.turn == r.turn
          && w.rows[i].terms.capabilityDigest == r.capabilityDigest
          && w.rows[i].effectiveDigest == r.effectiveDigest)
    && GraphOk(r, w.artifacts, ChunksOf(w.rows), Some(w.commit))
  }

  /** The error raised before the transaction begins, if any. */
  function PreCheck(w: TurnWrite): Option<Error> {
    if !Distinct(w.superseded) || w.commit.facts != [] || w.commit.outbox != []
      || w.commit.state.version != w.expected + 1
    then Some(ValueError)
    else if !ReceiptBinds(w) then Some(IdentityConflict)
    else None
  }
}
