/** What the semantic integrity scan demands of a store: the hashes it recomputes
    and the agreement of a lead's rows with its receipts. */
module Scan {
  import opened Options
  import opened Tables
  import opened TurnWrites
  import opened TurnCommit
  import opened LeaseQueue
  import opened History

  // ----------------------------------------------- hashes the scan recomputes

  const RESERVATION_SCHEMA := "phase8-reservation-relay-bundle"
  const HANDOFF_SCHEMA := "phase8-handoff-relay-bundle"
  const SCHEMAS := {RESERVATION_SCHEMA, "phase8-settlement-relay-bundle", HANDOFF_SCHEMA,
                    "phase8-learning-proposal", "phase8-boundary-internal-job"}

  function SchemaOf(b: BundleJson): Option<string> {
    match b
    case ReservationJson(_, _) => Some(RESERVATION_SCHEMA)
    case HandoffJson(_, _) => Some(HANDOFF_SCHEMA)
    case SchemaJson(schema, _) => Some(schema)
    case NoncanonicalJson(_) => None
  }

  /** The digest of the whole canonical text under its schema's domain. */
  function TextHash(b: BundleJson): Option<Digest> {
    var schema := SchemaOf(b);
    if schema.Some? && schema.value in SCHEMAS then Some(BundleTextDigest(schema.value + "-v1", b)) else None
  }

  function RelayScanHash(b: BundleJson): Option<Digest> {
    if SchemaOf(b) != Some(RESERVATION_SCHEMA) then TextHash(b)
    else if ReservationBundleHash(b).Ok? then Some(ReservationBundleHash(b).value)
    else None
  }

  function JobScanHash(b: BundleJson): Option<Digest> {
    TextHash(b)
  }

  // ------------------------------------------------- a well-formed store

  /** The source rows of a turn are its receipt's source events, in order. */
  ghost predicate SourcesMatch(t: map<SourceKey, SourceRow>, key: TurnKey, r: TurnReceipt) {
    && (forall k :: k in SourcesOf(t, key) ==> k.index < |r.sources|)
    && (forall i: nat :: i < |r.sources| ==> SourceMatches(t, key, r, i))
  }

  predicate SourceMatches(t: map<SourceKey, SourceRow>, key: TurnKey, r: TurnReceipt, i: nat)
    requires i < |r.sources|
  {
    var s := r.sources[i];
    SourceKey(key, i) in t && t[SourceKey(key, i)] == SourceRow(s.sourceId, s.sourceHash, Canonical(s), ReceiptDigest(r))
  }

  /** The command rows of a turn are exactly those its receipt lists. */
  ghost predicate CommandsMatch(t: map<Id, CommandRow>, key: TurnKey, r: TurnReceipt) {
    && (forall c :: c in CommandsOf(t, key) ==> c in Ids(r.commandRows))
    && (forall i: nat :: i < |r.commandRows| ==> CommandMatches(t, key, r, i))
  }

  predicate CommandMatches(t: map<Id, CommandRow>, key: TurnKey, r: TurnReceipt, i: nat)
    requires i < |r.commandRows|
  {
    var (id, hash) := r.commandRows[i];
    id in t && t[id].turn == key && t[id].hash == hash == CommandDigest(t[id].commandJson)
    && t[id].receiptHash == ReceiptDigest(r)
  }

  ghost predicate RelaysMatch(t: Relays, key: TurnKey, r: TurnReceipt) {
    && (forall c :: c in RelaysOf(t, key) ==> c in Ids(r.relayRows))
    && (forall i: nat :: i < |r.relayRows| ==> RelayMatches(t, key, r, i))
  }

  predicate RelayMatches(t: Relays, key: TurnKey, r: TurnReceipt, i: nat)
    requires i < |r.relayRows|
  {
    var (id, hash) := r.relayRows[i];
    && id in t && t[id].turn == key
    && RelayScanHash(t[id].content.bundle) == Some(t[id].content.bundleHash)
    && t[id].content.bundleHash == hash && t[id].content.receiptHash == ReceiptDigest(r)
  }

  ghost predicate JobsMatch(t: Jobs, key: TurnKey, r: TurnReceipt) {
    && (forall c :: c in JobsOf(t, key) ==> c in Ids(r.jobRows))
    && (forall i: nat :: i < |r.jobRows| ==> JobMatches(t, key, r, i))
  }

  predicate JobMatches(t: Jobs, key: TurnKey, r: TurnReceipt, i: nat)
    requires i < |r.jobRows|
  {
    var (id, hash) := r.jobRows[i];
    && id in t && t[id].turn == key
    && JobScanHash(t[id].content.bundle) == Some(t[id].content.artifactHash)
    && t[id].content.artifactHash == hash && t[id].content.receiptHash == ReceiptDigest(r)
  }

  /** The public row's allocation carries its terms, its ordinal and its id. */
  predicate AllocationBound(auth: map<AuthKey, AuthRow>, p: Id, c: PublicContent) {
    && c.key in auth
    && var a := auth[c.key];
       && !a.header && a.terms == c.terms && a.ordinal == Some(c.chunkIndex) && a.publicRow == Some(p)
       && a.state in {Bound, AuthFenced, Terminal, Closed, AuthManualReview}
  }

  predicate RowMatches(auth: map<AuthKey, AuthRow>, p: Id, c: PublicContent, r: TurnReceipt, i: nat)
    requires i < |r.chunks|
  {
    && (p, c.chunkIndex) == (r.chunks[i].0, i)
    && c.chunkJson == Canonical(r.chunks[i].2) && c.chunkHash == r.chunks[i].3
    && c.predecessor == (if i == 0 then None else Some(r.chunks[i - 1].3))
    && c.terms.capabilityDigest == r.capabilityDigest && c.effectiveDigest == r.effectiveDigest
    && c.receiptHash == ReceiptDigest(r)
    && AllocationBound(auth, p, c)
  }

  /** The public rows of a turn are its receipt's chunks, each bound to its allocation. */
  ghost predicate PublicMatch(auth: map<AuthKey, AuthRow>, t: map<Id, PublicRow>, key: TurnKey, r: TurnReceipt) {
    && (forall p :: p in RowsOf(t, key) ==> exists i: nat :: IsChunk(r, i, p))
    && (forall i: nat :: i < |r.chunks| ==>
          r.chunks[i].0 in RowsOf(t, key) && RowMatches(auth, r.chunks[i].0, t[r.chunks[i].0].content, r, i))
  }

  predicate IsChunk(r: TurnReceipt, i: nat, p: Id) {
    i < |r.chunks| && r.chunks[i].0 == p
  }

  /** The artifact indexes of a turn have no gaps. */
  ghost predicate Contiguous(t: map<ArtifactKey, ArtifactRow>, key: TurnKey) {
    forall k, i: nat :: k in ArtifactsOf(t, key) && i <= k.index ==> ArtifactKey(key, i) in t
  }

  /** The turn's artifacts by index, as far as they go without a gap. */
  function ArtifactSeq(t: map<ArtifactKey, ArtifactRow>, key: TurnKey, n: nat): seq<Artifact>
    requires forall i: nat :: i < n ==> ArtifactKey(key, i) in t
  {
    seq(n, i requires 0 <= i < n => t[ArtifactKey(key, i)].artifact)
  }

  predicate ArtifactOk(row: ArtifactRow, r: TurnReceipt) {
    && !row.artifact.payload.NoncanonicalBytes?
    && row.receiptHash == ReceiptDigest(r)
    && row.artifact.hash == ArtifactDigest(row.artifact.kind, row.artifact.payload)
  }

  /** The artifacts form the graph the receipt describes. */
  ghost predicate ArtifactsMatch(t: map<ArtifactKey, ArtifactRow>, key: TurnKey, r: TurnReceipt) {
    && Contiguous(t, key)
    && (forall k :: k in ArtifactsOf(t, key) ==> ArtifactOk(t[k], r))
    && exists n: nat :: AllArtifacts(t, key, n) && GraphMatches(ArtifactSeq(t, key, n), r)
  }

  predicate AllArtifacts(t: map<ArtifactKey, ArtifactRow>, key: TurnKey, n: nat) {
    && (forall i: nat :: i < n ==> ArtifactKey(key, i) in t)
    && (forall k :: k in t && k.turn == key ==> k.index < n)
  }

  predicate GraphMatches(artifacts: seq<Artifact>, r: TurnReceipt) {
    ReadRows(artifacts) == r.readRows && GraphOk(r, artifacts, ReceiptChunks(r), None)
  }

  ghost predicate TurnMatches(db: Db, key: TurnKey, r: TurnReceipt) {
    && SourcesMatch(db.sources, key, r) && ArtifactsMatch(db.artifacts, key, r)
    && CommandsMatch(db.commands, key, r) && RelaysMatch(db.relays, key, r) && JobsMatch(db.jobs, key, r)
    && PublicMatch(db.authority, db.outbox, key, r)
  }

  /** The turns whose stored rows are exactly those of their receipts. */
  ghost function MatchedTurns(db: Db): set<TurnKey> {
    set k | k in db.events && TurnVerdict(db, k)
  }

  ghost predicate TurnVerdict(db: Db, k: TurnKey) {
    k in db.events && EventOk(k, db.events[k]) && TurnMatches(db, k, db.events[k].receiptJson.value)
  }

  ghost predicate EventMatches(states: States, events: Events, matched: set<TurnKey>, key: TurnKey)
    requires key in events
  {
    key.lead in states && EventInHistory(states, events, key) && key in matched
  }

  ghost predicate LeadMatches(states: States, events: Events, matched: set<TurnKey>, lead: Id)
    requires lead in states
  {
    && StateOk(lead, states[lead])
    && (forall k {:trigger EventMatches(states, events, matched, k)} ::
          k in events && k.lead == lead ==> EventMatches(states, events, matched, k))
    && (forall v: nat :: 1 <= v <= states[lead].version ==> HasVersion(events, lead, v))
    && (forall k, l {:trigger SameVersion(events, k, l)} ::
          k in events && l in events && k.lead == lead && SameVersion(events, k, l) ==> k == l)
  }

  /** Every lead's state, history and child rows agree with one another. */
  ghost predicate WellFormed(db: Db) {
    forall lead :: lead in db.states ==> LeadMatches(db.states, db.events, MatchedTurns(db), lead)
  }
}
