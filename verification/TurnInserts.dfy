/** The INSERT loops of the turn commit, one per table. A row that breaks a
    uniqueness constraint, or a lost allocation, stops its loop. */
module TurnInserts {
  import opened Options
  import opened Tables
  import opened TurnWrites
  import opened TurnCommit

  method InsertSources(t: map<SourceKey, SourceRow>, w: TurnWrite)
    returns (ok: bool, after: map<SourceKey, SourceRow>)
    ensures ok <==> SourcesInsertable(t, w, |w.receipt.sources|)
    ensures ok ==> after == WithSources(t, w, |w.receipt.sources|)
  {
    after := t;
    for i := 0 to |w.receipt.sources|
      invariant after == WithSources(t, w, i)
      invariant SourcesInsertable(t, w, i)
    {
      if !SourceInsertable(after, w, i) { return false, after; }
      after := after[SourceKey(w.Key(), i) := NewSource(w, w.receipt.sources[i])];
    }
    ok := true;
  }

  method InsertArtifacts(t: map<ArtifactKey, ArtifactRow>, w: TurnWrite)
    returns (ok: bool, after: map<ArtifactKey, ArtifactRow>)
    ensures ok <==> ArtifactsInsertable(t, w, |w.artifacts|)
    ensures ok ==> after == WithArtifacts(t, w, |w.artifacts|)
  {
    after := t;
    for i := 0 to |w.artifacts|
      invariant after == WithArtifacts(t, w, i)
      invariant ArtifactsInsertable(t, w, i)
    {
      if !ArtifactInsertable(after, w, i) { return false, after; }
      after := after[ArtifactKey(w.Key(), i) := ArtifactRow(w.artifacts[i], w.ReceiptHash())];
    }
    ok := true;
  }

  method InsertCommands(t: map<Id, CommandRow>, w: TurnWrite)
    returns (ok: bool, after: map<Id, CommandRow>)
    ensures ok <==> CommandsInsertable(t, w, |w.commit.commands|)
    ensures ok ==> after == WithCommands(t, w, |w.commit.commands|)
  {
    after := t;
    for i := 0 to |w.commit.commands|
      invariant after == WithCommands(t, w, i)
      invariant CommandsInsertable(t, w, i)
    {
      if !CommandInsertable(after, w, i) { return false, after; }
      after := after[w.commit.commands[i].commandId := NewCommand(w, w.commit.commands[i])];
    }
    ok := true;
  }

  method InsertRelays(t: map<Id, RelayRow>, w: TurnWrite)
    returns (ok: bool, after: map<Id, RelayRow>)
    ensures ok <==> RelaysInsertable(t, w, |w.relays|)
    ensures ok ==> after == WithRelays(t, w, |w.relays|)
  {
    after := t;
    for i := 0 to |w.relays|
      invariant after == WithRelays(t, w, i)
      invariant RelaysInsertable(t, w, i)
    {
      if !RelayInsertable(after, w, i) { return false, after; }
      after := after[w.relays[i].relayId := NewRelay(w, w.relays[i])];
    }
    ok := true;
  }

  method InsertJobs(t: map<Id, JobRow>, w: TurnWrite)
    returns (ok: bool, after: map<Id, JobRow>)
    ensures ok <==> JobsInsertable(t, w, |w.jobs|)
    ensures ok ==> after == WithJobs(t, w, |w.jobs|)
  {
    after := t;
    for i := 0 to |w.jobs|
      invariant after == WithJobs(t, w, i)
      invariant JobsInsertable(t, w, i)
    {
      if !JobInsertable(after, w, i) { return false, after; }
      after := after[w.jobs[i].jobId := NewJob(w, w.jobs[i])];
    }
    ok := true;
  }

  /** Each public row first takes its allocation, then enters the outbox. */
  method InsertPublicRows(auth: map<AuthKey, AuthRow>, outbox: map<Id, PublicRow>, w: TurnWrite)
    returns (failed: Option<Error>, auth': map<AuthKey, AuthRow>, outbox': map<Id, PublicRow>)
    ensures failed.None? <==> PublicRowsInsertable(auth, outbox, w, |w.rows|)
    ensures failed.None? ==> auth' == WithBound(auth, w, |w.rows|) && outbox' == WithPublic(outbox, w, |w.rows|)
  {
    auth', outbox' := auth, outbox;
    for i := 0 to |w.rows|
      invariant PublicRowsInsertable(auth, outbox, w, i)
      invariant auth' == WithBound(auth, w, i) && outbox' == WithPublic(outbox, w, i)
    {
      var p := w.rows[i];
      if !AllocationFree(auth', w, i) { return Some(ConcurrencyConflict), auth', outbox'; }
      if !RowIdUnbound(auth', w, i) { return Some(IdentityConflict), auth', outbox'; }
      auth' := auth'[p.key := BoundAuth(auth'[p.key], p.rowId)];
      if !PublicInsertable(outbox', w, i) { return Some(IdentityConflict), auth', outbox'; }
      outbox' := outbox'[p.rowId := NewPublic(w, i)];
    }
    failed := None;
  }
}
