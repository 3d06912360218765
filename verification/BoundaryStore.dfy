/** The version 8 store: genesis, fence acquisition and the atomic turn commit,
    statement by statement. */
module BoundaryStore {
  import opened Options
  import opened Tables
  import opened Ordering
  import opened TurnWrites
  import opened TurnCommit
  import opened TurnInserts

  datatype VersionedState = VersionedState(state: BoundaryState, version: nat, hash: Digest)

  /** `_versioned_from_row`: the stored state authenticates its own row. */
  function LoadVersioned(row: StateRow, lead: Id): Result<VersionedState> {
    if row.stateJson.Corrupt? then Err(DataCorruption)
    else
      var s := row.stateJson.value;
      if s.leadKey != lead || s.version != row.version || StateDigest(s) != row.stateHash then Err(DataCorruption)
      else Ok(VersionedState(s, row.version, row.stateHash))
  }

  function EmptyState(lead: Id): BoundaryState {
    BoundaryState(lead, 0, None, [], "", [])
  }

  /** Why `import_genesis` refuses, if it does; a matching claim loads the state. */
  function ImportRefusal(states: map<Id, StateRow>, claims: map<Id, ImportClaim>, i: Import): Option<Error> {
    var lead := i.state.leadKey;
    if i.state.version != 0 then Some(ValueError)
    else if i.snapshotLead != lead then Some(IdentityConflict)
    else if lead in claims then if claims[lead] != ImportClaimOf(i) then Some(IdentityConflict) else None
    else if lead in states then Some(IdentityConflict)
    else None
  }

  predicate IsVersion(events: map<TurnKey, EventRow>, lead: Id, version: nat, k: TurnKey) {
    k in events && k.lead == lead && events[k].version == version
  }

  lemma VersionIsUnique(events: map<TurnKey, EventRow>, lead: Id, version: nat)
    requires VersionsUnique(events)
    ensures forall k, l :: IsVersion(events, lead, version, k) && IsVersion(events, lead, version, l) ==> k == l
  {
    forall k, l | IsVersion(events, lead, version, k) && IsVersion(events, lead, version, l) ensures k == l {
      assert SameVersion(events, k, l);
    }
  }

  /** The receipt hash stored for a version of a lead. */
  function HashAt(events: map<TurnKey, EventRow>, lead: Id, version: nat): Option<Digest>
    requires VersionsUnique(events)
  {
    VersionIsUnique(events, lead, version);
    if k :| k in events && IsVersion(events, lead, version, k) then Some(events[k].receiptHash) else None
  }

  function PreviousRefusal(db: Db, w: TurnWrite): (e: Option<Error>)
    requires VersionsUnique(db.events)
    ensures e.None? <==> PreviousOk(db, w)
  {
    PreviousIsHashAt(db, w);
    var previous := HashAt(db.events, w.Lead(), w.expected);
    if w.expected > 0 && previous.None? then Some(DataCorruption)
    else if w.receipt.previous != (if w.expected == 0 then None else previous) then Some(IdentityConflict)
    else None
  }

  /** Every refusal decided before the first write, in the order the code decides it. */
  function Refusal(db: Db, w: TurnWrite): Option<Error>
    requires VersionsUnique(db.events)
  {
    if PreCheck(w).Some? then PreCheck(w)
    else if w.Key() in db.events then
      if ReplayMatches(db, w) then None else Some(IdentityConflict)
    else
      if PreviousRefusal(db, w).Some? then PreviousRefusal(db, w)
      else if w.Lead() !in db.states then Some(StateNotFound)
      else if !StateCurrent(db, w) then Some(ConcurrencyConflict)
      else None
  }

  /** Whether a commit returns a receipt. */
  predicate Succeeds(db: Db, w: TurnWrite) {
    if w.Key() in db.events then PreCheck(w).None? && ReplayMatches(db, w) else Accepts(db, w)
  }

  function AfterCommit(db: Db, w: TurnWrite): Db
    requires Succeeds(db, w)
  {
    if w.Key() in db.events then db else Committed(db, w)
  }

  function Genesis(db: Db, lead: Id): Db {
    WithGenesis(db, EmptyState(lead))
  }

  function WithGenesis(db: Db, state: BoundaryState): Db {
    db.(states := db.states[state.leadKey := GenesisOf(state)])
  }

  function Imported(db: Db, i: Import): Db {
    WithGenesis(db, i.state).(claims := db.claims[i.state.leadKey := ImportClaimOf(i)])
  }

  function Acquired(db: Db, lead: Id): Db
    requires lead in db.states
  {
    var row := db.states[lead];
    db.(states := db.states[lead := row.(fencingToken := row.fencingToken + 1)])
  }

  class SQLiteBoundaryStore {
    var db: Db

    constructor ()
      ensures db == EMPTY_DB
    {
      db := EMPTY_DB;
    }

    method CreateGenesis(lead: Id) returns (r: Result<VersionedState>)
      modifies this
      ensures lead in old(db.states) ==> db == old(db) && r == LoadVersioned(old(db).states[lead], lead)
      ensures lead !in old(db.states) ==>
                db == Genesis(old(db), lead)
                && r == Ok(VersionedState(EmptyState(lead), 0, StateDigest(EmptyState(lead))))
    {
      if lead in db.states { return LoadVersioned(db.states[lead], lead); }
      db := db.(states := db.states[lead := GenesisOf(EmptyState(lead))]);
      return Ok(VersionedState(EmptyState(lead), 0, StateDigest(EmptyState(lead))));
    }

    method ImportGenesis(i: Import) returns (r: Result<VersionedState>)
      modifies this
      ensures var refused := ImportRefusal(old(db).states, old(db).claims, i); var lead := i.state.leadKey;
              if refused.Some? then r == Err(refused.value) && db == old(db)
              else if lead !in old(db).claims then
                db == Imported(old(db), i) && r == Ok(VersionedState(i.state, 0, StateDigest(i.state)))
              else
                db == old(db)
                && r == if lead in db.states then LoadVersioned(db.states[lead], lead) else Err(StateNotFound)
    {
      var lead := i.state.leadKey;
      if i.state.version != 0 { return Err(ValueError); }
      if i.snapshotLead != lead { return Err(IdentityConflict); }
      if lead in db.claims {
        if db.claims[lead] != ImportClaimOf(i) { return Err(IdentityConflict); }
        return if lead in db.states then LoadVersioned(db.states[lead], lead) else Err(StateNotFound);
      }
      if lead in db.states { return Err(IdentityConflict); }
      db := db.(states := db.states[lead := GenesisOf(i.state)]);
      db := db.(claims := db.claims[lead := ImportClaimOf(i)]);
      return Ok(VersionedState(i.state, 0, StateDigest(i.state)));
    }

    method AcquireFence(lead: Id) returns (r: Result<(VersionedState, nat)>)
      modifies this
      ensures r.Err? ==> db == old(db)
      ensures lead !in old(db.states) ==> r == Err(StateNotFound)
      ensures lead in old(db.states) ==>
                var row := old(db).states[lead];
                var loaded := LoadVersioned(row, lead);
                if loaded.Err? then r == Err(loaded.error)
                else
                  && r == Ok((loaded.value, row.fencingToken + 1))
                  && db == Acquired(old(db), lead)
    {
      if lead !in db.states { return Err(StateNotFound); }
      var saved := db;
      var row := db.states[lead];
      var token := row.fencingToken + 1;
      db := db.(states := db.states[lead := row.(fencingToken := token)]);
      var loaded := LoadVersioned(row, lead);
      if loaded.Err? {
        db := saved;
        return Err(loaded.error);
      }
      return Ok((loaded.value, token));
    }

    method CommitTurnV8(w: TurnWrite) returns (r: Result<TurnReceipt>)
      requires VersionsUnique(db.events)
      modifies this
      ensures r.Ok? <==> Succeeds(old(db), w)
      ensures r.Ok? ==> r.value == w.receipt && db == AfterCommit(old(db), w)
      ensures r.Err? ==> db == old(db)
      ensures Refusal(old(db), w).Some? ==> r == Err(Refusal(old(db), w).value)
    {
      var refused := PreCheck(w);
      if refused.Some? { return Err(refused.value); }
      var saved := db;
      if w.Key() in db.events {
        if !ReplayMatches(db, w) { return Err(IdentityConflict); }
        return Ok(w.receipt);
      }
      refused := PreviousRefusal(db, w);
      if refused.Some? { return Err(refused.value); }
      if w.Lead() !in db.states { return Err(StateNotFound); }
      if !StateCurrent(db, w) { return Err(ConcurrencyConflict); }
      var failed := CancelUnattemptedCompletions(w);
      if failed.Some? {
        db := saved;
        return Err(failed.value);
      }
      failed := AppendTurn(w);
      if failed.Some? {
        db := saved;
        return Err(failed.value);
      }
      return Ok(w.receipt);
    }

    /** The state update and the inserts, for a lead whose row is current. */
    method AppendTurn(w: TurnWrite) returns (failed: Option<Error>)
      requires w.Lead() in db.states
      modifies this
      ensures failed.None? <==>
                && EventInsertable(old(db).events, w)
                && ChildrenInsertable(old(db), w)
                && PublicRowsInsertable(old(db).authority, old(db).outbox, w, |w.rows|)
      ensures failed.None? ==> db == Appended(old(db), w)
    {
      db := db.(states := db.states[w.Lead() := NewState(w, db.states[w.Lead()])]);
      if !EventInsertable(db.events, w) { return Some(IdentityConflict); }
      db := db.(events := db.events[w.Key() := NewEvent(w)]);
      var ok := InsertChildren(w);
      if !ok { return Some(IdentityConflict); }
      var authority, outbox;
      failed, authority, outbox := InsertPublicRows(db.authority, db.outbox, w);
      if failed.None? { db := db.(authority := authority, outbox := outbox); }
    }

    /** The source, artifact, command, relay and job rows, in that order. */
    method InsertChildren(w: TurnWrite) returns (ok: bool)
      modifies this
      ensures ok <==> ChildrenInsertable(old(db), w)
      ensures ok ==> db == old(db).(
                sources := WithSources(old(db).sources, w, |w.receipt.sources|),
                artifacts := WithArtifacts(old(db).artifacts, w, |w.artifacts|),
                commands := WithCommands(old(db).commands, w, |w.commit.commands|),
                relays := WithRelays(old(db).relays, w, |w.relays|),
                jobs := WithJobs(old(db).jobs, w, |w.jobs|))
    {
      var sources, artifacts, commands, relays, jobs;
      ok, sources := InsertSources(db.sources, w);
      if ok { ok, artifacts := InsertArtifacts(db.artifacts, w); }
      if ok { ok, commands := InsertCommands(db.commands, w); }
      if ok { ok, relays := InsertRelays(db.relays, w); }
      if ok { ok, jobs := InsertJobs(db.jobs, w); }
      if ok {
        db := db.(sources := sources, artifacts := artifacts, commands := commands, relays := relays, jobs := jobs);
      }
    }

    /** The consolidation loop of completion.py. */
    method CancelUnattemptedCompletions(w: TurnWrite) returns (failed: Option<Error>)
      requires Distinct(w.superseded)
      modifies this
      ensures failed.None? <==> AllCancellable(old(db), w)
      ensures failed.None? ==> db == old(db).(outbox := CancelTurns(old(db).outbox, w.Lead(), w.superseded))
    {
      ghost var db0 := db;
      CancelNothing(db.outbox, w.Lead());
      for i := 0 to |w.superseded|
        invariant db == db0.(outbox := CancelTurns(db0.outbox, w.Lead(), w.superseded[..i]))
        invariant forall j :: 0 <= j < i ==> CancelError(db0.events, db0.outbox, w, w.superseded[j]).None?
      {
        CancelIsLocal(db0.events, db0.outbox, w, i);
        failed := CancelError(db.events, db.outbox, w, w.superseded[i]);
        assert failed == CancelError(db0.events, db0.outbox, w, w.superseded[i]);
        if failed.Some? { return; }
        db := db.(outbox := CancelTurns(db.outbox, w.Lead(), [w.superseded[i]]));
      }
      assert w.superseded[..|w.superseded|] == w.superseded;
      failed := None;
    }
  }

  // ------------------------------------------------------- loop arithmetic

  lemma PreviousIsHashAt(db: Db, w: TurnWrite)
    requires VersionsUnique(db.events)
    ensures PreviousOk(db, w) <==>
            w.receipt.previous == (if w.expected == 0 then None else HashAt(db.events, w.Lead(), w.expected))
            && (w.expected > 0 ==> HashAt(db.events, w.Lead(), w.expected).Some?)
  {
    VersionIsUnique(db.events, w.Lead(), w.expected);
    if k :| IsVersion(db.events, w.Lead(), w.expected, k) {
      assert HashAt(db.events, w.Lead(), w.expected) == Some(db.events[k].receiptHash);
      if w.receipt.previous == Some(db.events[k].receiptHash) { assert IsPreviousEvent(db, w, k); }
    }
  }

  lemma CancelNothing(outbox: map<Id, PublicRow>, lead: Id)
    ensures CancelTurns(outbox, lead, []) == outbox
  {
  }

  /** Cancelling other turns does not change whether one turn can be cancelled. */
  lemma CancelIsLocal(events: map<TurnKey, EventRow>, outbox: map<Id, PublicRow>, w: TurnWrite, i: nat)
    requires i < |w.superseded| && Distinct(w.superseded)
    ensures var outbox' := CancelTurns(outbox, w.Lead(), w.superseded[..i]);
            && CancelError(events, outbox', w, w.superseded[i]) == CancelError(events, outbox, w, w.superseded[i])
            && CancelTurns(outbox', w.Lead(), [w.superseded[i]]) == CancelTurns(outbox, w.Lead(), w.superseded[..i + 1])
  {
    var outbox' := CancelTurns(outbox, w.Lead(), w.superseded[..i]);
    var key := TurnKey(w.Lead(), w.superseded[i]);
    assert w.superseded[i] !in w.superseded[..i];
    assert forall p :: p in outbox && outbox[p].turn == key ==> outbox'[p] == outbox[p];
    assert RowsOf(outbox', key) == RowsOf(outbox, key);
    assert w.superseded[..i + 1] == w.superseded[..i] + [w.superseded[i]];
  }
}
