/** What the scan authenticates: two stores with the same events that both pass it
    hold the same turns, so no change of an authenticated column goes unnoticed. */
module TamperEvidence {
  import opened Options
  import opened Tables
  import opened TurnWrites
  import opened TurnCommit
  import opened LeaseQueue
  import opened History
  import opened Scan
  import opened ScanHashes
  import BoundaryStore

  // ------------------------------------------------------------- one table

  lemma SourcesSame(t: map<SourceKey, SourceRow>, u: map<SourceKey, SourceRow>, key: TurnKey, r: TurnReceipt, k: SourceKey)
    requires SourcesMatch(t, key, r) && SourcesMatch(u, key, r) && k.turn == key
    ensures k in t <==> k in u
    ensures k in t ==> t[k] == u[k]
  {
    assert k in t ==> k in SourcesOf(t, key);
    assert k in u ==> k in SourcesOf(u, key);
    if k.index < |r.sources| { assert SourceMatches(t, key, r, k.index) && SourceMatches(u, key, r, k.index); }
  }

  /** The place of a listed id. */
  lemma ListedAt(rows: seq<(Id, Digest)>, c: Id) returns (i: nat)
    requires c in Ids(rows)
    ensures i < |rows| && rows[i].0 == c
  {
    i :| i < |Ids(rows)| && Ids(rows)[i] == c;
  }

  predicate SameCommandRow(a: CommandRow, b: CommandRow) {
    a.turn == b.turn && a.commandJson == b.commandJson && a.hash == b.hash && a.receiptHash == b.receiptHash
  }

  lemma CommandsSame(t: map<Id, CommandRow>, u: map<Id, CommandRow>, key: TurnKey, r: TurnReceipt, c: Id)
    requires CommandsMatch(t, key, r) && CommandsMatch(u, key, r) && c in CommandsOf(t, key)
    ensures c in CommandsOf(u, key) && SameCommandRow(t[c], u[c])
  {
    var i := ListedAt(r.commandRows, c);
    assert CommandMatches(t, key, r, i) && CommandMatches(u, key, r, i);
  }

  predicate SameRelayRow(a: RelayRow, b: RelayRow) {
    a.turn == b.turn && a.content.bundle == b.content.bundle && a.content.bundleHash == b.content.bundleHash
    && a.content.receiptHash == b.content.receiptHash
  }

  lemma RelaysSame(t: Relays, u: Relays, key: TurnKey, r: TurnReceipt, c: Id)
    requires RelaysMatch(t, key, r) && RelaysMatch(u, key, r) && c in RelaysOf(t, key)
    ensures c in RelaysOf(u, key) && SameRelayRow(t[c], u[c])
  {
    var i := ListedAt(r.relayRows, c);
    assert RelayMatches(t, key, r, i) && RelayMatches(u, key, r, i);
    ScannedHashIdentifies(t[c].content.bundle, u[c].content.bundle, r.relayRows[i].1);
  }

  predicate SameJobRow(a: JobRow, b: JobRow) {
    a.turn == b.turn && a.content.bundle == b.content.bundle && a.content.artifactHash == b.content.artifactHash
    && a.content.receiptHash == b.content.receiptHash
  }

  lemma JobsSame(t: Jobs, u: Jobs, key: TurnKey, r: TurnReceipt, c: Id)
    requires JobsMatch(t, key, r) && JobsMatch(u, key, r) && c in JobsOf(t, key)
    ensures c in JobsOf(u, key) && SameJobRow(t[c], u[c])
  {
    var i := ListedAt(r.jobRows, c);
    assert JobMatches(t, key, r, i) && JobMatches(u, key, r, i);
    ScannedHashIdentifies(t[c].content.bundle, u[c].content.bundle, r.jobRows[i].1);
  }

  /** The columns of a public row that the receipt fixes, and its allocation's terms. */
  predicate SamePublicRow(a: PublicRow, b: PublicRow) {
    && a.turn == b.turn && a.content.chunkIndex == b.content.chunkIndex && a.content.chunkJson == b.content.chunkJson
    && a.content.chunkHash == b.content.chunkHash && a.content.predecessor == b.content.predecessor
    && a.content.effectiveDigest == b.content.effectiveDigest
    && a.content.terms.capabilityDigest == b.content.terms.capabilityDigest && a.content.receiptHash == b.content.receiptHash
  }

  predicate BoundToIt(auth: map<AuthKey, AuthRow>, p: Id, r: PublicRow) {
    && r.content.key in auth
    && var a := auth[r.content.key];
       && !a.header && a.terms == r.content.terms && a.ordinal == Some(r.content.chunkIndex) && a.publicRow == Some(p)
       && a.state != Open && a.state != Available
  }

  lemma RowsSame(auth: map<AuthKey, AuthRow>, t: map<Id, PublicRow>, auth2: map<AuthKey, AuthRow>, u: map<Id, PublicRow>,
                 key: TurnKey, r: TurnReceipt, p: Id)
    requires PublicMatch(auth, t, key, r) && PublicMatch(auth2, u, key, r) && p in RowsOf(t, key)
    ensures p in RowsOf(u, key) && SamePublicRow(t[p], u[p]) && BoundToIt(auth, p, t[p]) && BoundToIt(auth2, p, u[p])
  {
    var i: nat :| IsChunk(r, i, p);
    assert RowMatches(auth, r.chunks[i].0, t[r.chunks[i].0].content, r, i);
    assert RowMatches(auth2, r.chunks[i].0, u[r.chunks[i].0].content, r, i);
  }

  // ----------------------------------------------------------- the artifacts

  /** The kinds of artifact whose payloads the receipt fixes, directly or through the proposal. */
  predicate Fixed(kind: ArtifactKind) {
    kind != FrameCommitment
  }

  /** Two lists of artifacts that form the graph of one receipt have the same payloads
      of every kind but the inner frames. */
  lemma GraphsSame(r: TurnReceipt, s: seq<Artifact>, z: seq<Artifact>, kind: ArtifactKind)
    requires GraphMatches(s, r) && GraphMatches(z, r) && Fixed(kind)
    ensures Payloads(OfKind(s, kind)) == Payloads(OfKind(z, kind))
  {
    OfKindIsKind(s, kind);
    OfKindIsKind(z, kind);
    OfKindIsKind(s, MayaProposal);
    OfKindIsKind(z, MayaProposal);
    OfKindHashes(s, kind);
    OfKindHashes(z, kind);
    OfKindHashes(s, MayaProposal);
    OfKindHashes(z, MayaProposal);
    var p, q := OfKind(s, MayaProposal)[0], OfKind(z, MayaProposal)[0];
    assert p.hash == r.mayaProposalHash == q.hash && p.payload == q.payload;
  }

  lemma {:induction false} OfKindIsKind(s: seq<Artifact>, kind: ArtifactKind)
    ensures forall i :: 0 <= i < |OfKind(s, kind)| ==> OfKind(s, kind)[i].kind == kind
  {
    if s != [] { OfKindIsKind(s[1..], kind); }
  }

  lemma {:induction false} OfKindHashes(s: seq<Artifact>, kind: ArtifactKind)
    requires forall i :: 0 <= i < |s| ==> s[i].hash == ArtifactDigest(s[i].kind, s[i].payload)
    ensures forall i :: 0 <= i < |OfKind(s, kind)| ==>
              OfKind(s, kind)[i].hash == ArtifactDigest(OfKind(s, kind)[i].kind, OfKind(s, kind)[i].payload)
  {
    if s != [] { OfKindHashes(s[1..], kind); }
  }

  // ------------------------------------------------------------- whole stores

  ghost predicate SameSources(db: Db, u: Db, key: TurnKey) {
    forall k: SourceKey :: k.turn == key ==>
      (k in db.sources <==> k in u.sources) && (k in db.sources ==> db.sources[k] == u.sources[k])
  }

  ghost predicate SameCommands(db: Db, u: Db, key: TurnKey) {
    && CommandsOf(db.commands, key) == CommandsOf(u.commands, key)
    && forall c :: c in CommandsOf(db.commands, key) ==> SameCommandRow(db.commands[c], u.commands[c])
  }

  ghost predicate SameRelays(db: Db, u: Db, key: TurnKey) {
    && RelaysOf(db.relays, key) == RelaysOf(u.relays, key)
    && forall c :: c in RelaysOf(db.relays, key) ==> SameRelayRow(db.relays[c], u.relays[c])
  }

  ghost predicate SameJobs(db: Db, u: Db, key: TurnKey) {
    && JobsOf(db.jobs, key) == JobsOf(u.jobs, key)
    && forall c :: c in JobsOf(db.jobs, key) ==> SameJobRow(db.jobs[c], u.jobs[c])
  }

  ghost predicate SameRows(db: Db, u: Db, key: TurnKey) {
    && RowsOf(db.outbox, key) == RowsOf(u.outbox, key)
    && forall p :: p in RowsOf(db.outbox, key) ==>
         && SamePublicRow(db.outbox[p], u.outbox[p])
         && BoundToIt(db.authority, p, db.outbox[p]) && BoundToIt(u.authority, p, u.outbox[p])
  }

  /** The artifacts of the turn, listed by index in either store, say the same. */
  ghost predicate SameArtifactPayloads(db: Db, u: Db, key: TurnKey) {
    exists n: nat, m: nat :: ArtifactsSay(db, u, key, n, m)
  }

  ghost predicate ArtifactsSay(db: Db, u: Db, key: TurnKey, n: nat, m: nat) {
    && AllArtifacts(db.artifacts, key, n) && AllArtifacts(u.artifacts, key, m)
    && forall kind :: Fixed(kind) ==>
         Payloads(OfKind(ArtifactSeq(db.artifacts, key, n), kind)) == Payloads(OfKind(ArtifactSeq(u.artifacts, key, m), kind))
  }

  ghost predicate SameTurn(db: Db, u: Db, key: TurnKey) {
    && SameSources(db, u, key) && SameCommands(db, u, key) && SameRelays(db, u, key) && SameJobs(db, u, key)
    && SameRows(db, u, key) && SameArtifactPayloads(db, u, key)
  }

  lemma TurnSourcesSame(db: Db, u: Db, key: TurnKey, r: TurnReceipt)
    requires SourcesMatch(db.sources, key, r) && SourcesMatch(u.sources, key, r)
    ensures SameSources(db, u, key)
  {
    forall k: SourceKey | k.turn == key
      ensures (k in db.sources <==> k in u.sources) && (k in db.sources ==> db.sources[k] == u.sources[k])
    {
      SourcesSame(db.sources, u.sources, key, r, k);
    }
  }

  lemma TurnCommandsSame(db: Db, u: Db, key: TurnKey, r: TurnReceipt)
    requires CommandsMatch(db.commands, key, r) && CommandsMatch(u.commands, key, r)
    ensures SameCommands(db, u, key)
  {
    forall c | c in CommandsOf(db.commands, key) ensures c in CommandsOf(u.commands, key) && SameCommandRow(db.commands[c], u.commands[c]) {
      CommandsSame(db.commands, u.commands, key, r, c);
    }
    forall c | c in CommandsOf(u.commands, key) ensures c in CommandsOf(db.commands, key) { CommandsSame(u.commands, db.commands, key, r, c); }
  }

  lemma TurnRelaysSame(db: Db, u: Db, key: TurnKey, r: TurnReceipt)
    requires RelaysMatch(db.relays, key, r) && RelaysMatch(u.relays, key, r)
    ensures SameRelays(db, u, key)
  {
    forall c | c in RelaysOf(db.relays, key) ensures c in RelaysOf(u.relays, key) && SameRelayRow(db.relays[c], u.relays[c]) {
      RelaysSame(db.relays, u.relays, key, r, c);
    }
    forall c | c in RelaysOf(u.relays, key) ensures c in RelaysOf(db.relays, key) { RelaysSame(u.relays, db.relays, key, r, c); }
  }

  lemma TurnJobsSame(db: Db, u: Db, key: TurnKey, r: TurnReceipt)
    requires JobsMatch(db.jobs, key, r) && JobsMatch(u.jobs, key, r)
    ensures SameJobs(db, u, key)
  {
    forall c | c in JobsOf(db.jobs, key) ensures c in JobsOf(u.jobs, key) && SameJobRow(db.jobs[c], u.jobs[c]) {
      JobsSame(db.jobs, u.jobs, key, r, c);
    }
    forall c | c in JobsOf(u.jobs, key) ensures c in JobsOf(db.jobs, key) { JobsSame(u.jobs, db.jobs, key, r, c); }
  }

  lemma TurnRowsSame(db: Db, u: Db, key: TurnKey, r: TurnReceipt)
    requires PublicMatch(db.authority, db.outbox, key, r) && PublicMatch(u.authority, u.outbox, key, r)
    ensures SameRows(db, u, key)
  {
    forall p | p in RowsOf(db.outbox, key)
      ensures p in RowsOf(u.outbox, key) && SamePublicRow(db.outbox[p], u.outbox[p])
      ensures BoundToIt(db.authority, p, db.outbox[p]) && BoundToIt(u.authority, p, u.outbox[p])
    {
      RowsSame(db.authority, db.outbox, u.authority, u.outbox, key, r, p);
    }
    forall p | p in RowsOf(u.outbox, key) ensures p in RowsOf(db.outbox, key) {
      RowsSame(u.authority, u.outbox, db.authority, db.outbox, key, r, p);
    }
  }

  lemma TurnsSame(db: Db, u: Db, key: TurnKey, r: TurnReceipt)
    requires TurnMatches(db, key, r) && TurnMatches(u, key, r)
    ensures SameSources(db, u, key) && SameCommands(db, u, key) && SameRelays(db, u, key) && SameJobs(db, u, key)
    ensures SameRows(db, u, key)
  {
    TurnSourcesSame(db, u, key, r);
    TurnCommandsSame(db, u, key, r);
    TurnRelaysSame(db, u, key, r);
    TurnJobsSame(db, u, key, r);
    TurnRowsSame(db, u, key, r);
  }

  lemma ArtifactsSame(db: Db, u: Db, key: TurnKey, r: TurnReceipt)
    requires ArtifactsMatch(db.artifacts, key, r) && ArtifactsMatch(u.artifacts, key, r)
    ensures SameArtifactPayloads(db, u, key)
  {
    var n: nat :| AllArtifacts(db.artifacts, key, n) && GraphMatches(ArtifactSeq(db.artifacts, key, n), r);
    var m: nat :| AllArtifacts(u.artifacts, key, m) && GraphMatches(ArtifactSeq(u.artifacts, key, m), r);
    forall kind | Fixed(kind) {
      GraphsSame(r, ArtifactSeq(db.artifacts, key, n), ArtifactSeq(u.artifacts, key, m), kind);
    }
    assert ArtifactsSay(db, u, key, n, m);
  }

  /** The verdict of a well-formed store on one of its turns. */
  lemma WellFormedTurn(db: Db, key: TurnKey)
    requires WellFormed(db) && key in db.events && key.lead in db.states
    ensures TurnVerdict(db, key) && EventInHistory(db.states, db.events, key)
  {
    assert LeadMatches(db.states, db.events, MatchedTurns(db), key.lead);
    assert EventMatches(db.states, db.events, MatchedTurns(db), key);
  }

  /** The columns of an event that its receipt fixes. */
  predicate SameEventRow(a: EventRow, b: EventRow) {
    && a.eventHash == b.eventHash && a.receiptJson == b.receiptJson && a.receiptHash == b.receiptHash
    && a.version == b.version && a.occurredAt == b.occurredAt
  }

  /** One receipt hash fixes the event. */
  lemma SameReceiptSameEvent(db: Db, u: Db, k: TurnKey, l: TurnKey)
    requires WellFormed(db) && WellFormed(u) && k in db.events && l in u.events && k.lead in db.states && l.lead in u.states
    requires k.lead == l.lead && db.events[k].receiptHash == u.events[l].receiptHash
    ensures k == l && SameEventRow(db.events[k], u.events[l])
  {
    WellFormedTurn(db, k);
    WellFormedTurn(u, l);
  }

  lemma PredecessorOf(db: Db, k: TurnKey) returns (l: TurnKey)
    requires WellFormed(db) && k in db.events && k.lead in db.states && db.events[k].version > 1
    ensures l in db.events && l.lead == k.lead && db.events[l].version + 1 == db.events[k].version
    ensures db.events[k].receiptJson.Canonical? && db.events[k].receiptJson.value.previous == Some(db.events[l].receiptHash)
  {
    WellFormedTurn(db, k);
    l :| IsPredecessor(db.events, l, k) && db.events[k].receiptJson.value.previous == Some(db.events[l].receiptHash);
  }

  /** The hash of one receipt authenticates all earlier events of its lead: of two
      stores that both pass the scan and agree on it, the other has every event up to
      there, under the same turn, with the same receipt, version and time. */
  lemma {:induction false} ChainAuthenticates(db: Db, u: Db, k: TurnKey, l: TurnKey)
    requires WellFormed(db) && WellFormed(u) && k in db.events && k in u.events && k.lead in db.states && k.lead in u.states
    requires db.events[k].receiptHash == u.events[k].receiptHash
    requires l in db.events && l.lead == k.lead && db.events[l].version <= db.events[k].version
    ensures l in u.events && SameEventRow(db.events[l], u.events[l])
    decreases db.events[k].version
  {
    SameReceiptSameEvent(db, u, k, k);
    WellFormedTurn(db, l);
    if db.events[l].version == db.events[k].version {
      assert LeadMatches(db.states, db.events, MatchedTurns(db), k.lead);
      assert SameVersion(db.events, k, l);
    } else {
      var p := PredecessorOf(db, k);
      var q := PredecessorOf(u, k);
      SameReceiptSameEvent(db, u, p, q);
      ChainAuthenticates(db, u, p, l);
    }
  }

  /** Two stores that both pass the scan and agree on the receipt hash of a turn hold
      the same turn in every column that its receipt authenticates. So whoever changes,
      adds or removes such a row of a scanned store without forging that hash is found out. */
  lemma ScanAuthenticatesTurns(db: Db, u: Db, key: TurnKey)
    requires WellFormed(db) && WellFormed(u) && key in db.events && key in u.events
    requires key.lead in db.states && key.lead in u.states && u.events[key].receiptHash == db.events[key].receiptHash
    ensures SameTurn(db, u, key)
  {
    SameReceiptSameEvent(db, u, key, key);
    WellFormedTurn(db, key);
    WellFormedTurn(u, key);
    TurnsSame(db, u, key, db.events[key].receiptJson.value);
    ArtifactsSame(db, u, key, db.events[key].receiptJson.value);
  }

  lemma VersionNotAbove(db: Db, u: Db, lead: Id)
    requires WellFormed(db) && WellFormed(u) && u.events == db.events && lead in db.states && lead in u.states
    ensures db.states[lead].version <= u.states[lead].version
  {
    var v := db.states[lead].version;
    assert LeadMatches(db.states, db.events, MatchedTurns(db), lead);
    if v > 0 {
      assert HasVersion(db.events, lead, v);
      var k :| BoundaryStore.IsVersion(db.events, lead, v, k);
      WellFormedTurn(u, k);
    }
  }

  /** And they hold the same state of every lead that has committed. */
  lemma ScanAuthenticatesStates(db: Db, u: Db, lead: Id)
    requires WellFormed(db) && WellFormed(u) && u.events == db.events && lead in db.states && lead in u.states
    ensures u.states[lead].version == db.states[lead].version
    ensures db.states[lead].version > 0 ==>
              u.states[lead].stateJson == db.states[lead].stateJson && u.states[lead].stateHash == db.states[lead].stateHash
  {
    VersionNotAbove(db, u, lead);
    VersionNotAbove(u, db, lead);
    var v := db.states[lead].version;
    assert LeadMatches(db.states, db.events, MatchedTurns(db), lead);
    assert LeadMatches(u.states, u.events, MatchedTurns(u), lead);
    if v > 0 {
      assert HasVersion(db.events, lead, v);
      var k :| BoundaryStore.IsVersion(db.events, lead, v, k);
      WellFormedTurn(db, k);
      WellFormedTurn(u, k);
    }
  }
}
