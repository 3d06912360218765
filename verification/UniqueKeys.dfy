/** The UNIQUE constraints that are not primary keys, kept by every step of every run. */
module UniqueKeys {
  import opened Options
  import opened Tables
  import opened TurnWrites
  import opened TurnCommit
  import opened TurnTables
  import opened QueueInvariant
  import opened LeaseQueue
  import opened Steps
  import opened StepInvariant
  import opened Growth
  import opened Runs

  // --------------------------------------------------------- the constraints

  predicate SameSource(t: map<SourceKey, SourceRow>, k: SourceKey, l: SourceKey)
    requires k in t && l in t
  {
    k.turn.lead == l.turn.lead && t[k].sourceId == t[l].sourceId
  }

  /** UNIQUE (lead_key, source_event_id). */
  ghost predicate SourcesUnique(t: map<SourceKey, SourceRow>) {
    forall k, l {:trigger SameSource(t, k, l)} :: k in t && l in t && SameSource(t, k, l) ==> k == l
  }

  predicate SameArtifact(t: map<ArtifactKey, ArtifactRow>, k: ArtifactKey, l: ArtifactKey)
    requires k in t && l in t
  {
    || (k.turn.lead == l.turn.lead && t[k].artifact.artifactId == t[l].artifact.artifactId)
    || (k.turn == l.turn && t[k].artifact.frameSequence.Some?
        && t[k].artifact.frameSequence == t[l].artifact.frameSequence)
  }

  /** UNIQUE (lead_key, artifact_id) and (lead_key, aggregate_turn_id, frame_sequence). */
  ghost predicate ArtifactsUnique(t: map<ArtifactKey, ArtifactRow>) {
    forall k, l {:trigger SameArtifact(t, k, l)} :: k in t && l in t && SameArtifact(t, k, l) ==> k == l
  }

  predicate SameCommand(t: Relays, p: Id, q: Id)
    requires p in t && q in t
  {
    t[p].content.commandId == t[q].content.commandId
  }

  /** UNIQUE (command_id) of the relays. */
  ghost predicate RelaysUnique(t: Relays) {
    forall p, q {:trigger SameCommand(t, p, q)} :: p in t && q in t && SameCommand(t, p, q) ==> p == q
  }

  predicate SameKey(t: map<Id, PublicRow>, p: Id, q: Id)
    requires p in t && q in t
  {
    t[p].content.idempotencyKey == t[q].content.idempotencyKey
  }

  /** UNIQUE (idempotency_key) of the public rows. */
  ghost predicate RowsUnique(t: map<Id, PublicRow>) {
    forall p, q {:trigger SameKey(t, p, q)} :: p in t && q in t && SameKey(t, p, q) ==> p == q
  }

  predicate SameReceipt(events: Events, k: TurnKey, l: TurnKey)
    requires k in events && l in events
  {
    events[k].receiptHash == events[l].receiptHash
  }

  /** UNIQUE (turn_receipt_hash). */
  ghost predicate ReceiptsUnique(events: Events) {
    forall k, l {:trigger SameReceipt(events, k, l)} :: k in events && l in events && SameReceipt(events, k, l) ==> k == l
  }

  ghost predicate AllUnique(db: Db) {
    && SourcesUnique(db.sources) && ArtifactsUnique(db.artifacts) && RelaysUnique(db.relays)
    && RowsUnique(db.outbox) && ReceiptsUnique(db.events)
  }

  // ---------------------------------------------------------------- a commit

  lemma {:induction false} SourcesStayUnique(t: map<SourceKey, SourceRow>, w: TurnWrite, n: nat)
    requires SourcesUnique(t) && n <= |w.receipt.sources| && SourcesInsertable(t, w, n)
    ensures SourcesUnique(WithSources(t, w, n))
  {
    if n > 0 {
      SourcesStayUnique(t, w, n - 1);
      var s, s' := WithSources(t, w, n - 1), WithSources(t, w, n);
      assert SourceInsertable(s, w, n - 1);
      forall k, l | k in s' && l in s' && SameSource(s', k, l) ensures k == l {
        if k in s && l in s { assert SameSource(s, k, l); }
      }
    }
  }

  lemma {:induction false} ArtifactsStayUnique(t: map<ArtifactKey, ArtifactRow>, w: TurnWrite, n: nat)
    requires ArtifactsUnique(t) && n <= |w.artifacts| && ArtifactsInsertable(t, w, n)
    ensures ArtifactsUnique(WithArtifacts(t, w, n))
  {
    if n > 0 {
      ArtifactsStayUnique(t, w, n - 1);
      var s, s' := WithArtifacts(t, w, n - 1), WithArtifacts(t, w, n);
      assert ArtifactInsertable(s, w, n - 1);
      forall k, l | k in s' && l in s' && SameArtifact(s', k, l) ensures k == l {
        if k in s && l in s { assert SameArtifact(s, k, l); }
      }
    }
  }

  lemma {:induction false} RelaysStayUnique(t: Relays, w: TurnWrite, n: nat)
    requires RelaysUnique(t) && n <= |w.relays| && RelaysInsertable(t, w, n)
    ensures RelaysUnique(WithRelays(t, w, n))
  {
    if n > 0 {
      RelaysStayUnique(t, w, n - 1);
      var s, s' := WithRelays(t, w, n - 1), WithRelays(t, w, n);
      assert RelayInsertable(s, w, n - 1);
      forall p, q | p in s' && q in s' && SameCommand(s', p, q) ensures p == q {
        if p in s && q in s { assert SameCommand(s, p, q); }
      }
    }
  }

  lemma {:induction false} RowsStayUnique(t: map<Id, PublicRow>, w: TurnWrite, n: nat)
    requires RowsUnique(t) && n <= |w.rows| && OutboxInsertable(t, w, n)
    ensures RowsUnique(WithPublic(t, w, n))
  {
    if n > 0 {
      RowsStayUnique(t, w, n - 1);
      var s, s' := WithPublic(t, w, n - 1), WithPublic(t, w, n);
      assert PublicInsertable(s, w, n - 1);
      forall p, q | p in s' && q in s' && SameKey(s', p, q) ensures p == q {
        if p in s && q in s { assert SameKey(s, p, q); }
      }
    }
  }

  /** Rows that keep their contents keep their keys apart. */
  lemma SameContentsRelays(t: Relays, t': Relays)
    requires RelaysUnique(t) && t'.Keys == t.Keys && forall p :: p in t ==> t'[p].content == t[p].content
    ensures RelaysUnique(t')
  {
    forall p, q | p in t' && q in t' && SameCommand(t', p, q) ensures p == q { assert SameCommand(t, p, q); }
  }

  lemma SameContentsRows(t: map<Id, PublicRow>, t': map<Id, PublicRow>)
    requires RowsUnique(t) && t'.Keys == t.Keys && forall p :: p in t ==> t'[p].content == t[p].content
    ensures RowsUnique(t')
  {
    forall p, q | p in t' && q in t' && SameKey(t', p, q) ensures p == q { assert SameKey(t, p, q); }
  }

  lemma ReceiptsStayUnique(events: Events, w: TurnWrite)
    requires ReceiptsUnique(events) && EventInsertable(events, w)
    ensures ReceiptsUnique(events[w.Key() := NewEvent(w)])
  {
    var events' := events[w.Key() := NewEvent(w)];
    forall k, l | k in events' && l in events' && SameReceipt(events', k, l) ensures k == l {
      if k in events && l in events && k != w.Key() && l != w.Key() { assert SameReceipt(events, k, l); }
    }
  }

  lemma CommitKeepsRows(auth: map<AuthKey, AuthRow>, t: map<Id, PublicRow>, w: TurnWrite)
    requires RowsUnique(t)
    requires PublicRowsInsertable(auth, CancelTurns(t, w.Lead(), w.superseded), w, |w.rows|)
    ensures RowsUnique(WithPublic(CancelTurns(t, w.Lead(), w.superseded), w, |w.rows|))
  {
    var cancelled := CancelTurns(t, w.Lead(), w.superseded);
    SameContentsRows(t, cancelled);
    RowsStayUnique(cancelled, w, |w.rows|);
  }

  lemma CommitKeepsUnique(db: Db, w: TurnWrite)
    requires AllUnique(db) && Accepts(db, w)
    ensures AllUnique(Committed(db, w))
  {
    SourcesStayUnique(db.sources, w, |w.receipt.sources|);
    ArtifactsStayUnique(db.artifacts, w, |w.artifacts|);
    RelaysStayUnique(db.relays, w, |w.relays|);
    ReceiptsStayUnique(db.events, w);
    CommitKeepsRows(db.authority, db.outbox, w);
  }

  // ------------------------------------------------------------------ a step

  lemma TurnStepKeepsUnique(db: Db, s: TurnStep, db': Db, e: Event)
    requires AllUnique(db) && TurnStepTo(db, s, db', e)
    ensures AllUnique(db')
  {
    if e.Advanced? { CommitKeepsUnique(db, e.w); } else { QuietTurnFrame(db, s, db', e); }
  }

  lemma PublicStepKeepsUnique(db: Db, s: PublicStep, db': Db, e: Event)
    requires AllUnique(db) && StepTo(db, OnPublic(s), db', e) && QueueInv(db)
    ensures AllUnique(db')
  {
    PublicStepFrame(db, s, db', e);
    PublicStepGrows(db, s, db', e);
    GrownRowsUnique(db.events, db.outbox, db'.outbox);
  }

  /** Without a new turn the rows only keep their contents. */
  lemma GrownRowsUnique(events: Events, t: map<Id, PublicRow>, t': map<Id, PublicRow>)
    requires RowsUnique(t) && OutboxGrows(events, events, t, t')
    ensures RowsUnique(t')
  {
    forall p | p in t' ensures p in t { assert !NewTurn(events, events, t'[p].turn); }
    SameContentsRows(t, t');
  }

  lemma RelayStepKeepsUnique(db: Db, s: RelayStep, db': Db, e: Event)
    requires AllUnique(db) && RelayStepTo(db, s, db', e)
    ensures AllUnique(db')
  {
    RelayStepFrame(db, s, db', e);
    forall p { RelayKept(db, s, db', e, p); }
    SameContentsRelays(db.relays, db'.relays);
  }

  lemma StepKeepsUnique(db: Db, s: Step, db': Db, e: Event)
    requires AllUnique(db) && QueueInv(db) && StepTo(db, s, db', e)
    ensures AllUnique(db')
  {
    match s
    case OnTurn(t) => TurnStepKeepsUnique(db, t, db', e);
    case OnPublic(p) => PublicStepKeepsUnique(db, p, db', e);
    case OnRelay(r) => RelayStepKeepsUnique(db, r, db', e);
    case OnJob(j) => JobStepFrame(db, j, db', e);
  }

  /** At every moment of every run no two rows share a key that the schema declares
      unique; in particular no two public rows are ever sent under one idempotency key,
      and no command has two relays. */
  lemma {:induction false} KeysStayUnique(ws: seq<World>, steps: seq<Step>, j: nat)
    requires Run(ws, steps) && j < |ws|
    ensures AllUnique(ws[j].db)
  {
    if j > 0 {
      KeysStayUnique(ws, steps, j - 1);
      RunInv(ws, steps, j - 1);
      var e := RunLogs(ws, steps, j - 1);
      StepKeepsUnique(ws[j - 1].db, steps[j - 1], ws[j].db, e);
    }
  }
}
