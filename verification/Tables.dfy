/** The values and rows of the version 8 boundary store.

    Digests are symbolic: a digest is the term that was hashed, so two digests
    are equal exactly when their preimages are. `OpaqueDigest` stands for a
    caller-supplied digest whose preimage this model never looks at.
    Canonical JSON columns are `Json<T>`: the one canonical text of a value, or
    text that the value's strict decoder rejects. */
module Tables {
  import opened Options

  datatype Result<+T> = Ok(value: T) | Err(error: Error)

  datatype Error =
    | ValueError
    | OverflowError
    | IntegrityError
    | ConcurrencyConflict
    | IdentityConflict
    | DataCorruption
    | StateNotFound
    | TurnDeadlineExceeded
    | TurnEventConflict
    | TurnImportRejected
    | InvalidKernelDecision

  datatype Json<+T> = Canonical(value: T) | Corrupt(text: string)

  /** An opaque identifier. */
  datatype Id = Id(text: string)

  /** Microseconds since 0001-01-01T00:00:00 UTC; see module Timestamps. */
  type Instant = nat

  const MAX_INSTANT: Instant := 315537897599999999

  // ---------------------------------------------------------------- values

  datatype Digest =
    | StateDigest(state: BoundaryState)
    | CommitDigest(commit: BoundaryCommit)
    | ReceiptDigest(receipt: TurnReceipt)
    | ChunkDigest(chunk: PublicReplyChunk)
    | CommandDigest(commandText: Json<Command>)
    | ArtifactDigest(kind: ArtifactKind, payload: Payload)
    | BundlePreimageDigest(schema: string, body: string)
    | BundleTextDigest(bundleDomain: string, bundle: BundleJson)
    | OperationDigest(handoff: bool, artifactHash: Digest, sourceReceipt: Digest)
    | OpaqueDigest(text: string)

  datatype Workflow = Workflow(workflowId: Id, packageChildren: seq<Command>)

  datatype Payment = Payment(paymentId: Id, workflowId: Id)

  datatype BoundaryState = BoundaryState(
    leadKey: Id, version: nat, workflow: Option<Workflow>, payments: seq<Payment>,
    conversation: string, processedEventIds: seq<Id>)

  datatype CommandKind = Reservation | PaymentSettlement

  /** `subjectId` is the workflow of a reservation command, the payment of a settlement. */
  datatype Command = Command(commandId: Id, kind: CommandKind, subjectId: Id, wire: string)

  datatype OutboxMessage = OutboxMessage(
    messageId: Id, idempotencyKey: Id, workflowId: Id, commandId: Option<Id>, body: string)

  datatype TypedFact = TypedFact(name: Id, slot: string)

  datatype BoundaryCommit = BoundaryCommit(
    state: BoundaryState, commands: seq<Command>, outbox: seq<OutboxMessage>, facts: seq<TypedFact>)

  datatype Author = Maya | AuthenticatedSystem

  datatype PublicReplyChunk = PublicReplyChunk(
    turn: Id, ordinal: nat, text: string, closureHash: Digest, author: Author)

  datatype SourceEvent = SourceEvent(sourceId: Id, sourceHash: Digest)

  datatype ArtifactKind =
    | FrameCommitment | ReadObservation | FactArtifact | ToolProposal
    | LearningProposal | MayaClosure | MayaProposal | KernelDecision

  /** The canonical JSON of one turn artifact, as its typed decoder sees it. */
  datatype Payload =
    | FrameBytes(sequence: nat, frame: string)
    | ReadBytes(observation: string)
    | ClosureBytes(closure: Closure)
    | ProposalBytes(proposal: Proposal)
    | CommitmentBytes(stateHash: Digest, stateVersion: nat, commandRows: seq<(Id, Digest)>)
    | DecisionBytes(decision: BoundaryCommit)
    | UntypedBytes(object: string)
    | NoncanonicalBytes(raw: string)

  datatype Closure = Closure(
    turn: Id, intent: string, route: string, replyType: string, finalSeq: nat, rest: string)

  datatype Proposal = Proposal(
    turn: Id, intent: string,
    readRows: seq<Payload>, facts: seq<Payload>, tools: seq<Payload>, learning: seq<Payload>,
    chunks: seq<PublicReplyChunk>,
    closureHash: Digest, finalCommitmentHash: Digest, finalSeq: nat, finalMac: Digest,
    runtimeGraphDigest: Digest, route: string, replyType: string,
    projectionHash: Option<Digest>)

  datatype E2eBinding = E2eBinding(
    qualificationId: Id, admissionSequence: nat, admissionRevision: nat, commitFenceToken: nat,
    manifestHash: Digest, generation: nat, allocationIds: seq<Id>)

  /** A turn receipt without its `artifact_hash`, which its constructor forces
      to be the digest of everything else. */
  datatype TurnReceipt = TurnReceipt(
    turn: Id, eventHash: Digest, sources: seq<SourceEvent>,
    mayaProposalHash: Digest, kernelDecisionHash: Digest,
    readRows: seq<(Id, Payload, Digest)>,
    stateVersion: nat, stateHash: Digest,
    chunks: seq<(Id, nat, PublicReplyChunk, Digest)>,
    commandRows: seq<(Id, Digest)>, relayRows: seq<(Id, Digest)>, jobRows: seq<(Id, Digest)>,
    transcriptMac: Digest, finalSeq: nat,
    graphDigest: Digest, capabilityDigest: Digest, effectiveDigest: Digest, projectionDigest: Digest,
    e2e: Option<E2eBinding>,
    committedAt: Instant, previous: Option<Digest>)

  /** The JSON text of a relay bundle or internal job artifact. */
  datatype BundleJson =
    | ReservationJson(body: string, claimedHash: Digest)
    | HandoffJson(body: string, claimedHash: Digest)
    | SchemaJson(schema: string, body: string)
    | NoncanonicalJson(raw: string)

  datatype AcceptanceReceipt = AcceptanceReceipt(
    rowId: Id, idempotencyKey: Id, acceptance: string, acceptedAt: Instant)

  datatype TargetReceipt = TargetReceipt(
    operationId: Digest, handoff: bool, artifactHash: Digest, sourceReceiptHash: Digest, body: string)

  // ------------------------------------------------------------------ rows

  datatype TurnKey = TurnKey(lead: Id, turn: Id)

  datatype StateRow = StateRow(
    version: nat, stateJson: Json<BoundaryState>, stateHash: Digest, fencingToken: nat)

  /** The row a lead starts with. */
  function GenesisOf(state: BoundaryState): StateRow {
    StateRow(0, Canonical(state), StateDigest(state), 0)
  }

  /** A migrated import result with the lead and the hash of its snapshot. */
  datatype Import = Import(snapshotLead: Id, snapshotHash: Digest, state: BoundaryState)

  datatype ImportClaim = ImportClaim(snapshotHash: Digest, stateHash: Digest)

  function ImportClaimOf(i: Import): ImportClaim {
    ImportClaim(i.snapshotHash, StateDigest(i.state))
  }

  datatype EventRow = EventRow(
    eventHash: Digest, commitHash: Digest, receiptJson: Json<TurnReceipt>, receiptHash: Digest,
    version: nat, occurredAt: Instant)

  datatype SourceKey = SourceKey(turn: TurnKey, index: nat)

  datatype SourceRow = SourceRow(
    sourceId: Id, sourceHash: Digest, sourceJson: Json<SourceEvent>, receiptHash: Digest)

  datatype ArtifactKey = ArtifactKey(turn: TurnKey, index: nat)

  datatype Artifact = Artifact(
    artifactId: Id, kind: ArtifactKind, frameSequence: Option<nat>, frameReference: Option<Digest>,
    payload: Payload, hash: Digest)

  datatype ArtifactRow = ArtifactRow(artifact: Artifact, receiptHash: Digest)

  datatype CommandRow = CommandRow(
    turn: TurnKey, kind: CommandKind, commandJson: Json<Command>, hash: Digest, receiptHash: Digest)

  datatype QueueStatus = QPending | QLeased | QAcked | QCancelled | QManualReview

  /** The columns of a relay or internal-job row that its queue updates. */
  datatype QueueState = QueueState(
    status: QueueStatus, owner: Option<Id>, fencingToken: nat,
    acquiredAt: Option<Instant>, expiresAt: Option<Instant>,
    claimCount: nat, failures: nat,
    targetReceipt: Option<TargetReceipt>, ackedAt: Option<Instant>)

  datatype RelayContent = RelayContent(
    commandId: Id, bundle: BundleJson, bundleHash: Digest, receiptHash: Digest)

  datatype RelayRow = RelayRow(turn: TurnKey, content: RelayContent, queue: QueueState)

  datatype JobKind = HandoffRelay | LearningJob

  datatype JobContent = JobContent(
    kind: JobKind, bundle: BundleJson, artifactHash: Digest, receiptHash: Digest,
    qualificationId: Option<Id>, epoch: Option<nat>)

  datatype JobRow = JobRow(turn: TurnKey, content: JobContent, target: Digest, queue: QueueState)

  datatype AuthKey = AuthKey(
    authorizationId: Id, scopeSubjectId: Id, channelScope: Id, generation: nat, allocationId: Id)

  datatype AuthKind = ConversationTest | EndToEnd

  /** The columns an allocation and the public row bound to it must share. */
  datatype AuthTerms = AuthTerms(
    kind: AuthKind, qualificationId: Option<Id>, scenarioId: Option<Id>,
    capabilityDigest: Digest, effectDigest: Digest, targetBindingHash: Digest)

  datatype AuthState = Open | Available | Bound | AuthFenced | Terminal | Closed | AuthManualReview

  datatype AuthRow = AuthRow(
    header: bool, terms: AuthTerms, ordinal: Option<nat>,
    state: AuthState, publicRow: Option<Id>, revision: nat, fencedAt: Option<Instant>)

  datatype PublicStatus = Pending | Leased | DispatchFenced | Delivered | Cancelled | ManualReview

  /** The columns of a public row that are written once, when its turn commits. */
  datatype PublicContent = PublicContent(
    chunkIndex: nat, idempotencyKey: Id, channelId: Id, key: AuthKey, terms: AuthTerms,
    effectiveDigest: Digest,
    chunkJson: Json<PublicReplyChunk>, chunkHash: Digest, predecessor: Option<Digest>,
    receiptHash: Digest, deadline: Instant)

  datatype PublicRow = PublicRow(
    turn: TurnKey, content: PublicContent,
    status: PublicStatus, owner: Option<Id>, fencingToken: nat,
    acquiredAt: Option<Instant>, expiresAt: Option<Instant>,
    claimCount: nat, slots: nat, deliveryReceipt: Option<AcceptanceReceipt>)

  datatype Db = Db(
    states: map<Id, StateRow>,
    events: map<TurnKey, EventRow>,
    sources: map<SourceKey, SourceRow>,
    artifacts: map<ArtifactKey, ArtifactRow>,
    commands: map<Id, CommandRow>,
    relays: map<Id, RelayRow>,
    jobs: map<Id, JobRow>,
    authority: map<AuthKey, AuthRow>,
    outbox: map<Id, PublicRow>,
    claims: map<Id, ImportClaim>)

  const EMPTY_DB: Db := Db(map[], map[], map[], map[], map[], map[], map[], map[], map[], map[])

  // ----------------------------------------------------- schema constraints

  predicate SameVersion(events: map<TurnKey, EventRow>, t: TurnKey, u: TurnKey)
    requires t in events && u in events
  {
    t.lead == u.lead && events[t].version == events[u].version
  }

  /** UNIQUE (lead_key, state_version) of `boundary_events`. */
  predicate VersionsUnique(events: map<TurnKey, EventRow>) {
    forall t, u :: t in events && u in events && SameVersion(events, t, u) ==> t == u
  }

  /** CHECK constraints of `boundary_public_outbox`. */
  predicate PublicRowCheck(r: PublicRow) {
    && r.fencingToken == r.claimCount
    && ((r.status == Leased || r.status == DispatchFenced) ==>
          r.owner.Some? && r.acquiredAt.Some? && r.expiresAt.Some?)
    && (!(r.status == Leased || r.status == DispatchFenced) ==>
          r.owner.None? && r.acquiredAt.None? && r.expiresAt.None?)
    && r.slots <= 1
    && ((r.status == Pending || r.status == Leased || r.status == Cancelled) ==> r.slots == 0)
    && ((r.status == DispatchFenced || r.status == Delivered) ==> r.slots == 1)
    && (r.status == Delivered <==> r.deliveryReceipt.Some?)
    && TermsCheck(r.content.terms)
  }

  predicate TermsCheck(t: AuthTerms) {
    if t.kind == ConversationTest
    then t.qualificationId.None? && t.scenarioId.None?
    else t.qualificationId.Some? && t.scenarioId.Some?
  }

  /** CHECK constraints of `boundary_dispatch_authority`. */
  predicate AuthRowCheck(k: AuthKey, a: AuthRow) {
    && TermsCheck(a.terms)
    && (a.header ==>
          k.allocationId == Id("__header__") && a.ordinal.None? && a.publicRow.None?
          && (a.state == Open || a.state == Closed || a.state == AuthManualReview))
    && (!a.header ==> k.allocationId != Id("__header__") && a.ordinal.Some? && a.state != Open)
    && (a.state == Available ==> a.publicRow.None?)
    && ((a.state == Bound || a.state == AuthFenced || a.state == Terminal) ==> a.publicRow.Some?)
    && ((a.state == AuthFenced || a.state == Terminal) <==> a.fencedAt.Some?)
  }

  /** CHECK constraints shared by `boundary_command_relays` and `boundary_outbox`. */
  predicate QueueCheck(q: QueueState) {
    && q.fencingToken == q.claimCount
    && (q.status == QLeased <==> q.owner.Some?)
    && (q.status == QLeased <==> q.acquiredAt.Some?)
    && (q.status == QLeased <==> q.expiresAt.Some?)
    && (q.status == QAcked <==> q.targetReceipt.Some?)
    && (q.status == QAcked <==> q.ackedAt.Some?)
    && q.failures <= 3
  }
}
