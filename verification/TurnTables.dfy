/** What each table holds after the rows of one commit were inserted. */
module TurnTables {
  import opened Tables
  import opened TurnWrites
  import opened TurnCommit

  lemma {:induction false} SourceRowAt(t: map<SourceKey, SourceRow>, w: TurnWrite, n: nat, i: nat)
    requires i < n <= |w.receipt.sources| && SourcesInsertable(t, w, n)
    ensures SourceKey(w.Key(), i) in WithSources(t, w, n) && WithSources(t, w, n)[SourceKey(w.Key(), i)] == NewSource(w, w.receipt.sources[i])
  {
    if i < n - 1 { SourceRowAt(t, w, n - 1, i); }
  }

  lemma {:induction false} SourcesTable(t: map<SourceKey, SourceRow>, w: TurnWrite, n: nat)
    requires n <= |w.receipt.sources| && SourcesInsertable(t, w, n)
    ensures forall k :: k in t ==> k in WithSources(t, w, n) && WithSources(t, w, n)[k] == t[k]
    ensures forall k :: k in WithSources(t, w, n) ==> k in t || (k.turn == w.Key() && k.index < n)
  {
    if n > 0 {
      SourcesTable(t, w, n - 1);
      assert SourceInsertable(WithSources(t, w, n - 1), w, n - 1);
    }
  }

  lemma {:induction false} ArtifactRowAt(t: map<ArtifactKey, ArtifactRow>, w: TurnWrite, n: nat, i: nat)
    requires i < n <= |w.artifacts| && ArtifactsInsertable(t, w, n)
    ensures ArtifactKey(w.Key(), i) in WithArtifacts(t, w, n) && WithArtifacts(t, w, n)[ArtifactKey(w.Key(), i)] == ArtifactRow(w.artifacts[i], w.ReceiptHash())
  {
    if i < n - 1 { ArtifactRowAt(t, w, n - 1, i); }
  }

  lemma {:induction false} ArtifactsTable(t: map<ArtifactKey, ArtifactRow>, w: TurnWrite, n: nat)
    requires n <= |w.artifacts| && ArtifactsInsertable(t, w, n)
    ensures forall k :: k in t ==> k in WithArtifacts(t, w, n) && WithArtifacts(t, w, n)[k] == t[k]
    ensures forall k :: k in WithArtifacts(t, w, n) ==> k in t || (k.turn == w.Key() && k.index < n)
  {
    if n > 0 {
      ArtifactsTable(t, w, n - 1);
      assert ArtifactInsertable(WithArtifacts(t, w, n - 1), w, n - 1);
    }
  }

  lemma {:induction false} CommandsTable(t: map<Id, CommandRow>, w: TurnWrite, n: nat)
    requires n <= |w.commit.commands| && CommandsInsertable(t, w, n)
    ensures forall k :: k in t ==> k in WithCommands(t, w, n) && WithCommands(t, w, n)[k] == t[k]
    ensures forall i: nat {:trigger w.commit.commands[i]} :: i < n ==>
              w.commit.commands[i].commandId !in t && w.commit.commands[i].commandId in WithCommands(t, w, n) && WithCommands(t, w, n)[w.commit.commands[i].commandId] == NewCommand(w, w.commit.commands[i])
    ensures forall k :: k in WithCommands(t, w, n) ==> k in t || exists i: nat :: i < n && k == w.commit.commands[i].commandId
  {
    if n > 0 {
      CommandsTable(t, w, n - 1);
      assert CommandInsertable(WithCommands(t, w, n - 1), w, n - 1);
    }
  }

  lemma {:induction false} RelaysTable(t: map<Id, RelayRow>, w: TurnWrite, n: nat)
    requires n <= |w.relays| && RelaysInsertable(t, w, n)
    ensures forall k :: k in t ==> k in WithRelays(t, w, n) && WithRelays(t, w, n)[k] == t[k]
    ensures forall i: nat {:trigger w.relays[i]} :: i < n ==>
              w.relays[i].relayId !in t && w.relays[i].relayId in WithRelays(t, w, n) && WithRelays(t, w, n)[w.relays[i].relayId] == NewRelay(w, w.relays[i])
    ensures forall k :: k in WithRelays(t, w, n) ==> k in t || exists i: nat :: i < n && k == w.relays[i].relayId
  {
    if n > 0 {
      RelaysTable(t, w, n - 1);
      assert RelayInsertable(WithRelays(t, w, n - 1), w, n - 1);
    }
  }

  lemma {:induction false} JobsTable(t: map<Id, JobRow>, w: TurnWrite, n: nat)
    requires n <= |w.jobs| && JobsInsertable(t, w, n)
    ensures forall k :: k in t ==> k in WithJobs(t, w, n) && WithJobs(t, w, n)[k] == t[k]
    ensures forall i: nat {:trigger w.jobs[i]} :: i < n ==>
              w.jobs[i].jobId !in t && w.jobs[i].jobId in WithJobs(t, w, n) && WithJobs(t, w, n)[w.jobs[i].jobId] == NewJob(w, w.jobs[i])
    ensures forall k :: k in WithJobs(t, w, n) ==> k in t || exists i: nat :: i < n && k == w.jobs[i].jobId
  {
    if n > 0 {
      JobsTable(t, w, n - 1);
      assert JobInsertable(WithJobs(t, w, n - 1), w, n - 1);
    }
  }

  /** The sequential constraints on the public rows, without their allocations. */
  predicate OutboxInsertable(t: map<Id, PublicRow>, w: TurnWrite, n: nat)
    requires n <= |w.rows|
  {
    forall i: nat :: i < n ==> PublicInsertable(WithPublic(t, w, i), w, i)
  }

  predicate RowIdFresh(t: map<Id, PublicRow>, w: TurnWrite, i: nat)
    requires i < |w.rows|
  {
    w.rows[i].rowId !in WithPublic(t, w, i)
  }

  lemma {:induction false} PublicRowAt(t: map<Id, PublicRow>, w: TurnWrite, n: nat, i: nat)
    requires i < n <= |w.rows| && forall j: nat :: j < n ==> RowIdFresh(t, w, j)
    ensures w.rows[i].rowId in WithPublic(t, w, n) && WithPublic(t, w, n)[w.rows[i].rowId] == NewPublic(w, i)
  {
    if i < n - 1 {
      PublicRowAt(t, w, n - 1, i);
      assert RowIdFresh(t, w, n - 1);
    }
  }

  lemma {:induction false} PublicTable(t: map<Id, PublicRow>, w: TurnWrite, n: nat)
    requires n <= |w.rows| && forall i: nat :: i < n ==> RowIdFresh(t, w, i)
    ensures forall k :: k in t ==> k in WithPublic(t, w, n) && WithPublic(t, w, n)[k] == t[k]
    ensures forall i: nat :: i < n ==> w.rows[i].rowId !in t
    ensures forall k :: k in WithPublic(t, w, n) ==> k in t || exists i: nat :: i < n && k == w.rows[i].rowId
  {
    if n > 0 {
      PublicTable(t, w, n - 1);
      assert RowIdFresh(t, w, n - 1);
    }
  }

  /** The sequential conditions on the allocations alone. */
  predicate AllocationsFree(t: map<AuthKey, AuthRow>, w: TurnWrite, n: nat)
    requires n <= |w.rows|
  {
    forall i: nat :: i < n ==> AllocationFree(WithBound(t, w, i), w, i) && RowIdUnbound(WithBound(t, w, i), w, i)
  }

  lemma {:induction false} BoundTable(t: map<AuthKey, AuthRow>, w: TurnWrite, n: nat)
    requires n <= |w.rows| && AllocationsFree(t, w, n)
    ensures WithBound(t, w, n).Keys == t.Keys
    ensures forall k :: k in t ==>
              WithBound(t, w, n)[k] == t[k] || exists i: nat :: i < n && k == w.rows[i].key
    ensures forall i: nat :: i < n ==>
              w.rows[i].key in t && AllocationFree(t, w, i)
              && WithBound(t, w, n)[w.rows[i].key] == BoundAuth(t[w.rows[i].key], w.rows[i].rowId)
  {
    if n > 0 {
      BoundTable(t, w, n - 1);
      var t1 := WithBound(t, w, n - 1);
      assert AllocationFree(t1, w, n - 1);
      forall i: nat | i < n - 1 ensures w.rows[i].key != w.rows[n - 1].key {
        assert t1[w.rows[i].key].state == Bound;
      }
    }
  }
}
