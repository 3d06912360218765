/** The CHECK constraints on rows that their constructors already enforce, kept by
    every step of every run. */
module StoredChecks {
  import opened Options
  import opened Tables
  import opened TurnWrites
  import opened TurnCommit
  import opened TurnTables
  import opened QueueInvariant
  import opened LeaseQueue
  import opened History
  import opened Steps
  import opened StepInvariant
  import opened Growth
  import opened Runs

  /** A job's text is canonical, and its qualification has an epoch from 1 on. */
  predicate JobChecked(c: JobContent) {
    && !c.bundle.NoncanonicalJson?
    && match c.epoch
       case Some(epoch) => c.qualificationId.Some? && epoch >= 1
       case None => c.qualificationId.None?
  }

  ghost predicate JobsChecked(t: Jobs) {
    forall p :: p in t ==> JobChecked(t[p].content)
  }

  ghost predicate RelaysChecked(t: Relays) {
    forall p :: p in t ==> !t[p].content.bundle.NoncanonicalJson?
  }

  /** A conversation test names neither a qualification nor a scenario, an end-to-end
      authorization names both. */
  predicate TermsChecked(t: AuthTerms) {
    match t.kind
    case ConversationTest => t.qualificationId == None && t.scenarioId == None
    case EndToEnd => t.qualificationId != None && t.scenarioId != None
  }

  /** A stored receipt has a source, counts from 1, lists no id twice, and lists its
      chunks by their place and digest. */
  predicate ReceiptChecked(r: TurnReceipt) {
    && r.sources != [] && r.stateVersion > 0 && r.finalSeq > 0
    && (forall i, j :: 0 <= i < |r.sources| && 0 <= j < |r.sources| && r.sources[i].sourceId == r.sources[j].sourceId ==> i == j)
    && (forall i, j :: 0 <= i < |r.commandRows| && 0 <= j < |r.commandRows| && r.commandRows[i].0 == r.commandRows[j].0 ==> i == j)
    && (forall i, j :: 0 <= i < |r.relayRows| && 0 <= j < |r.relayRows| && r.relayRows[i].0 == r.relayRows[j].0 ==> i == j)
    && (forall i, j :: 0 <= i < |r.jobRows| && 0 <= j < |r.jobRows| && r.jobRows[i].0 == r.jobRows[j].0 ==> i == j)
    && (forall i, j :: 0 <= i < |r.chunks| && 0 <= j < |r.chunks| && r.chunks[i].0 == r.chunks[j].0 ==> i == j)
    && (forall i, j :: 0 <= i < |r.readRows| && 0 <= j < |r.readRows| && r.readRows[i].0 == r.readRows[j].0 ==> i == j)
    && (forall i :: 0 <= i < |r.readRows| ==> r.readRows[i].2 == ArtifactDigest(ReadObservation, r.readRows[i].1))
    && (forall i :: 0 <= i < |r.chunks| ==>
          r.chunks[i].1 == i == r.chunks[i].2.ordinal && r.chunks[i].2.turn == r.turn && r.chunks[i].3 == ChunkDigest(r.chunks[i].2))
    && match r.e2e
       case None => true
       case Some(e) =>
         && e.admissionSequence > 0 && e.admissionRevision > 0 && e.commitFenceToken > 0 && e.generation > 0
         && e.allocationIds != []
         && forall i, j :: 0 <= i < |e.allocationIds| && 0 <= j < |e.allocationIds| && e.allocationIds[i] == e.allocationIds[j] ==> i == j
  }

  lemma ValidReceiptChecked(r: TurnReceipt)
    ensures ReceiptValid(r) ==> ReceiptChecked(r)
  {
    if ReceiptValid(r) {
      forall i, j | 0 <= i < j < |r.commandRows| ensures r.commandRows[i].0 != r.commandRows[j].0 {
        assert Ids(r.commandRows)[i] != Ids(r.commandRows)[j];
      }
      forall i, j | 0 <= i < j < |r.relayRows| ensures r.relayRows[i].0 != r.relayRows[j].0 {
        assert Ids(r.relayRows)[i] != Ids(r.relayRows)[j];
      }
      forall i, j | 0 <= i < j < |r.jobRows| ensures r.jobRows[i].0 != r.jobRows[j].0 {
        assert Ids(r.jobRows)[i] != Ids(r.jobRows)[j];
      }
    }
  }

  lemma CommitKeepsChecked(db: Db, w: TurnWrite)
    requires JobsChecked(db.jobs) && RelaysChecked(db.relays) && WritesValid(w) && Accepts(db, w)
    ensures JobsChecked(WithJobs(db.jobs, w, |w.jobs|)) && RelaysChecked(WithRelays(db.relays, w, |w.relays|))
  {
    JobsTable(db.jobs, w, |w.jobs|);
    RelaysTable(db.relays, w, |w.relays|);
  }

  lemma TurnStepKeepsChecked(db: Db, t: TurnStep, db': Db, e: Event)
    requires JobsChecked(db.jobs) && RelaysChecked(db.relays) && StepTo(db, OnTurn(t), db', e)
    ensures JobsChecked(db'.jobs) && RelaysChecked(db'.relays)
  {
    if e.Advanced? {
      OnlyCommitAdvances(db, OnTurn(t), db', e.w);
      CommitKeepsChecked(db, e.w);
    } else {
      QuietTurnFrame(db, t, db', e);
    }
  }

  lemma RelayStepKeepsChecked(db: Db, r: RelayStep, db': Db, e: Event)
    requires RelaysChecked(db.relays) && RelayStepTo(db, r, db', e)
    ensures db'.jobs == db.jobs && RelaysChecked(db'.relays)
  {
    RelayStepFrame(db, r, db', e);
    forall k | k in db'.relays ensures !db'.relays[k].content.bundle.NoncanonicalJson? { RelayKept(db, r, db', e, k); }
  }

  lemma JobStepKeepsChecked(db: Db, j: JobStep, db': Db, e: Event)
    requires JobsChecked(db.jobs) && JobStepTo(db, j, db', e)
    ensures db'.relays == db.relays && JobsChecked(db'.jobs)
  {
    JobStepFrame(db, j, db', e);
    forall k | k in db'.jobs ensures JobChecked(db'.jobs[k].content) { JobKept(db, j, db', e, k); }
  }

  lemma StepKeepsChecked(db: Db, s: Step, db': Db, e: Event)
    requires JobsChecked(db.jobs) && RelaysChecked(db.relays) && StepTo(db, s, db', e)
    ensures JobsChecked(db'.jobs) && RelaysChecked(db'.relays)
  {
    match s
    case OnTurn(t) => TurnStepKeepsChecked(db, t, db', e);
    case OnPublic(p) => PublicStepFrame(db, p, db', e);
    case OnRelay(r) => RelayStepKeepsChecked(db, r, db', e);
    case OnJob(j) => JobStepKeepsChecked(db, j, db', e);
  }

  lemma {:induction false} QueuesStayChecked(ws: seq<World>, steps: seq<Step>, j: nat)
    requires Run(ws, steps) && j < |ws|
    ensures JobsChecked(ws[j].db.jobs) && RelaysChecked(ws[j].db.relays)
  {
    if j > 0 {
      QueuesStayChecked(ws, steps, j - 1);
      var e := RunLogs(ws, steps, j - 1);
      StepKeepsChecked(ws[j - 1].db, steps[j - 1], ws[j].db, e);
    }
  }

  lemma LinkedTermsChecked(db: Db)
    requires TwoTables(db)
    ensures forall p :: p in db.outbox ==> TermsChecked(db.outbox[p].content.terms)
    ensures forall k :: k in db.authority ==> TermsChecked(db.authority[k].terms)
  {
    forall p | p in db.outbox ensures TermsChecked(db.outbox[p].content.terms) { assert Linked(db, p); }
    forall k | k in db.authority ensures TermsChecked(db.authority[k].terms) { assert BackLinked(db, k); }
  }

  lemma HistoryChecked(states: States, events: Events)
    requires Linear(states, events)
    ensures forall k :: k in events ==> events[k].receiptJson.Canonical? && ReceiptChecked(events[k].receiptJson.value)
  {
    forall k | k in events ensures events[k].receiptJson.Canonical? && ReceiptChecked(events[k].receiptJson.value) {
      EventsAreInHistory(states, events, k);
      ValidReceiptChecked(events[k].receiptJson.value);
    }
  }

  /** At every moment of every run: every job pairs a qualification with an epoch, every
      queued bundle is canonical, the terms of every public row and allocation name
      exactly what their kind calls for, and every stored receipt is a valid one. */
  lemma StoredRowsPassChecks(ws: seq<World>, steps: seq<Step>, j: nat)
    requires Run(ws, steps) && j < |ws|
    ensures JobsChecked(ws[j].db.jobs) && RelaysChecked(ws[j].db.relays)
    ensures forall p :: p in ws[j].db.outbox ==> TermsChecked(ws[j].db.outbox[p].content.terms)
    ensures forall k :: k in ws[j].db.authority ==> TermsChecked(ws[j].db.authority[k].terms)
    ensures forall k :: k in ws[j].db.events ==>
              ws[j].db.events[k].receiptJson.Canonical? && ReceiptChecked(ws[j].db.events[k].receiptJson.value)
  {
    QueuesStayChecked(ws, steps, j);
    RunInv(ws, steps, j);
    LinkedTermsChecked(ws[j].db);
    HistoryChecked(ws[j].db.states, ws[j].db.events);
  }
}
