/** The version 7 store: genesis, legacy import, fence and event commit. */
module Phase7Store {
  import opened Options
  import opened Tables
  import opened TurnCommit
  import Base = BoundaryStore

  type VersionedState = Base.VersionedState

  datatype EventKey = EventKey(lead: Id, event: Id)

  datatype EventRow7 = EventRow7(eventHash: Digest, commitHash: Digest, version: nat)

  datatype CommandRow7 = CommandRow7(event: EventKey, command: Command)

  datatype MessageRow7 = MessageRow7(event: EventKey, message: OutboxMessage)

  datatype Db7 = Db7(
    states: map<Id, StateRow>, claims: map<Id, ImportClaim>, events: map<EventKey, EventRow7>,
    commands: map<Id, CommandRow7>, outbox: map<Id, MessageRow7>)

  const EMPTY_DB7: Db7 := Db7(map[], map[], map[], map[], map[])

  // --------------------------------------------------------------- loading

  function LoadState(db: Db7, lead: Id): Result<VersionedState> {
    if lead !in db.states then Err(StateNotFound) else Base.LoadVersioned(db.states[lead], lead)
  }

  /** The outcome of `import_genesis`, before anything is written. */
  function ImportRefusal(db: Db7, i: Import): Option<Error> {
    Base.ImportRefusal(db.states, db.claims, i)
  }

  function Imported(db: Db7, i: Import): Db7 {
    db.(states := db.states[i.state.leadKey := GenesisOf(i.state)],
        claims := db.claims[i.state.leadKey := ImportClaimOf(i)])
  }

  function Acquired7(db: Db7, lead: Id): Db7
    requires lead in db.states
  {
    db.(states := db.states[lead := db.states[lead].(fencingToken := db.states[lead].fencingToken + 1)])
  }

  // ---------------------------------------------------------------- commit

  datatype EventCommit = EventCommit(event: Id, eventHash: Digest, expected: nat, token: nat, commit: BoundaryCommit)
  {
    function Lead(): Id { commit.state.leadKey }
    function Key(): EventKey { EventKey(commit.state.leadKey, event) }
  }

  function Matching(payments: seq<Payment>, paymentId: Id): seq<Payment> {
    if payments == [] then []
    else (if payments[0].paymentId == paymentId then [payments[0]] else []) + Matching(payments[1..], paymentId)
  }

  /** The workflow a command acts on, if it can be told. */
  function CommandWorkflow(c: Command, payments: seq<Payment>): Option<Id> {
    if c.kind == Reservation then Some(c.subjectId)
    else if |Matching(payments, c.subjectId)| == 1 then Some(Matching(payments, c.subjectId)[0].workflowId)
    else None
  }

  /** The last command of that id decides, as in a dictionary filled in order. */
  function WorkflowOf(id: Id, commands: seq<Command>, payments: seq<Payment>): Option<Id> {
    if commands == [] then None
    else if commands[|commands| - 1].commandId == id then CommandWorkflow(commands[|commands| - 1], payments)
    else WorkflowOf(id, commands[..|commands| - 1], payments)
  }

  predicate IsWorkflow(s: BoundaryState, id: Id) {
    || (s.workflow.Some? && s.workflow.value.workflowId == id)
    || exists i :: 0 <= i < |s.payments| && s.payments[i].workflowId == id
  }

  /** `_validate_outbox_bindings`. */
  predicate OutboxBinds(c: BoundaryCommit) {
    && (forall i :: 0 <= i < |c.commands| ==> CommandWorkflow(c.commands[i], c.state.payments).Some?)
    && (forall i :: 0 <= i < |c.outbox| ==>
          IsWorkflow(c.state, c.outbox[i].workflowId)
          && (c.outbox[i].commandId.Some? ==>
                WorkflowOf(c.outbox[i].commandId.value, c.commands, c.state.payments) == Some(c.outbox[i].workflowId)))
  }

  function WithCommands7(t: map<Id, CommandRow7>, e: EventCommit, n: nat): map<Id, CommandRow7>
    requires n <= |e.commit.commands|
  {
    if n == 0 then t
    else WithCommands7(t, e, n - 1)[e.commit.commands[n - 1].commandId := CommandRow7(e.Key(), e.commit.commands[n - 1])]
  }

  predicate Command7Insertable(t: map<Id, CommandRow7>, e: EventCommit, i: nat)
    requires i < |e.commit.commands|
  {
    var c := e.commit.commands[i];
    c.commandId !in t && (c.kind == Reservation ==> BindsWorkflow(c, e.commit.state.workflow))
  }

  predicate Commands7Insertable(t: map<Id, CommandRow7>, e: EventCommit, n: nat)
    requires n <= |e.commit.commands|
  {
    forall i: nat :: i < n ==> Command7Insertable(WithCommands7(t, e, i), e, i)
  }

  function WithMessages(t: map<Id, MessageRow7>, e: EventCommit, n: nat): map<Id, MessageRow7>
    requires n <= |e.commit.outbox|
  {
    if n == 0 then t
    else WithMessages(t, e, n - 1)[e.commit.outbox[n - 1].messageId := MessageRow7(e.Key(), e.commit.outbox[n - 1])]
  }

  predicate MessageInsertable(t: map<Id, MessageRow7>, e: EventCommit, i: nat)
    requires i < |e.commit.outbox|
  {
    && e.commit.outbox[i].messageId !in t
    && forall m :: m in t ==> t[m].message.idempotencyKey != e.commit.outbox[i].idempotencyKey
  }

  predicate MessagesInsertable(t: map<Id, MessageRow7>, e: EventCommit, n: nat)
    requires n <= |e.commit.outbox|
  {
    forall i: nat :: i < n ==> MessageInsertable(WithMessages(t, e, i), e, i)
  }

  predicate VersionFree(events: map<EventKey, EventRow7>, e: EventCommit) {
    forall k :: k in events && k.lead == e.Lead() ==> events[k].version != e.commit.state.version
  }

  /** Every refusal decided before the first write. */
  function CommitRefusal(db: Db7, e: EventCommit): Option<Error> {
    if e.commit.facts != [] then Some(ValueError)
    else if !OutboxBinds(e.commit) then Some(IdentityConflict)
    else if e.Key() in db.events then
      if db.events[e.Key()] != EventRow7(e.eventHash, CommitDigest(e.commit), e.commit.state.version)
      then Some(IdentityConflict) else None
    else if e.commit.state.version != e.expected + 1 then Some(ValueError)
    else if e.Lead() !in db.states then Some(StateNotFound)
    else if db.states[e.Lead()].version != e.expected || db.states[e.Lead()].fencingToken != e.token
    then Some(ConcurrencyConflict)
    else None
  }

  predicate RowsInsertable(db: Db7, e: EventCommit) {
    && VersionFree(db.events, e)
    && Commands7Insertable(db.commands, e, |e.commit.commands|)
    && MessagesInsertable(db.outbox, e, |e.commit.outbox|)
  }

  /** The commit advances the lead. */
  predicate Advances(db: Db7, e: EventCommit) {
    CommitRefusal(db, e).None? && e.Key() !in db.events && RowsInsertable(db, e)
  }

  function Advanced7(db: Db7, e: EventCommit): Db7
    requires e.Lead() in db.states
  {
    var s := e.commit.state;
    db.(states := db.states[e.Lead() := StateRow(s.version, Canonical(s), StateDigest(s), db.states[e.Lead()].fencingToken)],
        events := db.events[e.Key() := EventRow7(e.eventHash, CommitDigest(e.commit), s.version)],
        commands := WithCommands7(db.commands, e, |e.commit.commands|),
        outbox := WithMessages(db.outbox, e, |e.commit.outbox|))
  }

  function CommitResult(db: Db7, e: EventCommit): Result<VersionedState> {
    if CommitRefusal(db, e).Some? then Err(CommitRefusal(db, e).value)
    else if e.Key() in db.events then LoadState(db, e.Lead())
    else if !RowsInsertable(db, e) then Err(IdentityConflict)
    else Ok(Base.VersionedState(e.commit.state, e.commit.state.version, StateDigest(e.commit.state)))
  }

  // -------------------------------------------------- what a commit stores

  lemma {:induction false} CommandStored(t: map<Id, CommandRow7>, e: EventCommit, n: nat, i: nat)
    requires i < n <= |e.commit.commands| && Commands7Insertable(t, e, n)
    ensures e.commit.commands[i].commandId in WithCommands7(t, e, n)
    ensures WithCommands7(t, e, n)[e.commit.commands[i].commandId] == CommandRow7(e.Key(), e.commit.commands[i])
  {
    if i < n - 1 {
      CommandStored(t, e, n - 1, i);
      assert Command7Insertable(WithCommands7(t, e, n - 1), e, n - 1);
    }
  }

  lemma {:induction false} MessageStored(t: map<Id, MessageRow7>, e: EventCommit, n: nat, i: nat)
    requires i < n <= |e.commit.outbox| && MessagesInsertable(t, e, n)
    ensures e.commit.outbox[i].messageId in WithMessages(t, e, n)
    ensures WithMessages(t, e, n)[e.commit.outbox[i].messageId] == MessageRow7(e.Key(), e.commit.outbox[i])
  {
    if i < n - 1 {
      MessageStored(t, e, n - 1, i);
      assert MessageInsertable(WithMessages(t, e, n - 1), e, n - 1);
    }
  }

  lemma {:induction false} CommandsTable7(t: map<Id, CommandRow7>, e: EventCommit, n: nat)
    requires n <= |e.commit.commands| && Commands7Insertable(t, e, n)
    ensures forall k :: k in t ==> k in WithCommands7(t, e, n) && WithCommands7(t, e, n)[k] == t[k]
    ensures forall i: nat {:trigger e.commit.commands[i]} :: i < n ==>
              var c := e.commit.commands[i];
              c.commandId !in t && c.commandId in WithCommands7(t, e, n)
              && WithCommands7(t, e, n)[c.commandId] == CommandRow7(e.Key(), c)
    ensures forall k :: k in WithCommands7(t, e, n) && k !in t ==> exists i: nat :: i < n && e.commit.commands[i].commandId == k
  {
    if n > 0 {
      CommandsTable7(t, e, n - 1);
      assert Command7Insertable(WithCommands7(t, e, n - 1), e, n - 1);
    }
  }

  lemma {:induction false} MessagesTable7(t: map<Id, MessageRow7>, e: EventCommit, n: nat)
    requires n <= |e.commit.outbox| && MessagesInsertable(t, e, n)
    ensures forall k :: k in t ==> k in WithMessages(t, e, n) && WithMessages(t, e, n)[k] == t[k]
    ensures forall i: nat {:trigger e.commit.outbox[i]} :: i < n ==>
              var m := e.commit.outbox[i];
              m.messageId !in t && m.messageId in WithMessages(t, e, n)
              && WithMessages(t, e, n)[m.messageId] == MessageRow7(e.Key(), m)
    ensures forall k :: k in WithMessages(t, e, n) && k !in t ==> exists i: nat :: i < n && e.commit.outbox[i].messageId == k
  {
    if n > 0 {
      MessagesTable7(t, e, n - 1);
      assert MessageInsertable(WithMessages(t, e, n - 1), e, n - 1);
    }
  }

  /** A workflow can only be looked up for a command of the commit. */
  lemma {:induction false} WorkflowNamesCommand(id: Id, commands: seq<Command>, payments: seq<Payment>) returns (i: nat)
    requires WorkflowOf(id, commands, payments).Some?
    ensures i < |commands| && commands[i].commandId == id
  {
    var last := commands[|commands| - 1];
    if last.commandId == id {
      i := |commands| - 1;
    } else {
      i := WorkflowNamesCommand(id, commands[..|commands| - 1], payments);
    }
  }

  /** Every command and message of an accepted commit is stored under its event,
      and a message's command is stored under that same event: the foreign key of
      the outbox can never fail. */
  lemma AdvancedRowsStored(db: Db7, e: EventCommit, i: nat)
    requires Advances(db, e) && i < |e.commit.outbox|
    ensures var db', m := Advanced7(db, e), e.commit.outbox[i];
            && m.messageId in db'.outbox && db'.outbox[m.messageId] == MessageRow7(e.Key(), m)
            && (m.commandId.Some? ==>
                  m.commandId.value in db'.commands && db'.commands[m.commandId.value].event == e.Key())
  {
    MessageStored(db.outbox, e, |e.commit.outbox|, i);
    var m := e.commit.outbox[i];
    if m.commandId.Some? {
      var k := WorkflowNamesCommand(m.commandId.value, e.commit.commands, e.commit.state.payments);
      CommandStored(db.commands, e, |e.commit.commands|, k);
    }
  }

  // -------------------------------------------------------------- the class

  class SQLiteBoundaryStore7 {
    var db: Db7

    constructor ()
      ensures db == EMPTY_DB7
    {
      db := EMPTY_DB7;
    }

    method CreateGenesis(lead: Id) returns (r: Result<VersionedState>)
      modifies this
      ensures db == if lead in old(db).states then old(db)
                    else old(db).(states := old(db).states[lead := GenesisOf(Base.EmptyState(lead))])
      ensures r == LoadState(db, lead)
    {
      if lead in db.states { return Base.LoadVersioned(db.states[lead], lead); }
      db := db.(states := db.states[lead := GenesisOf(Base.EmptyState(lead))]);
      return Ok(Base.VersionedState(Base.EmptyState(lead), 0, StateDigest(Base.EmptyState(lead))));
    }

    method ImportGenesis(i: Import) returns (r: Result<VersionedState>)
      modifies this
      ensures ImportRefusal(old(db), i).Some? ==> r == Err(ImportRefusal(old(db), i).value) && db == old(db)
      ensures ImportRefusal(old(db), i).None? ==>
                if i.state.leadKey in old(db).claims then db == old(db) && r == LoadState(db, i.state.leadKey)
                else db == Imported(old(db), i) && r == Ok(Base.VersionedState(i.state, 0, StateDigest(i.state)))
    {
      if i.state.version != 0 { return Err(ValueError); }
      if i.snapshotLead != i.state.leadKey { return Err(IdentityConflict); }
      var lead := i.state.leadKey;
      if lead in db.claims {
        if db.claims[lead] != ImportClaimOf(i) { return Err(IdentityConflict); }
        return LoadState(db, lead);
      }
      if lead in db.states { return Err(IdentityConflict); }
      db := db.(states := db.states[lead := GenesisOf(i.state)]);
      db := db.(claims := db.claims[lead := ImportClaimOf(i)]);
      return Ok(Base.VersionedState(i.state, 0, StateDigest(i.state)));
    }

    method AcquireFence(lead: Id) returns (r: Result<(VersionedState, nat)>)
      modifies this
      ensures LoadState(old(db), lead).Err? ==> r == Err(LoadState(old(db), lead).error) && db == old(db)
      ensures LoadState(old(db), lead).Ok? ==>
                && r == Ok((LoadState(old(db), lead).value, old(db).states[lead].fencingToken + 1))
                && db == Acquired7(old(db), lead)
    {
      if lead !in db.states { return Err(StateNotFound); }
      var saved := db;
      var row := db.states[lead];
      db := Acquired7(db, lead);
      var loaded := Base.LoadVersioned(row, lead);
      if loaded.Err? {
        db := saved;
        return Err(loaded.error);
      }
      return Ok((loaded.value, row.fencingToken + 1));
    }

    method Commit(e: EventCommit) returns (r: Result<VersionedState>)
      modifies this
      ensures r == CommitResult(old(db), e)
      ensures db == if Advances(old(db), e) then Advanced7(old(db), e) else old(db)
    {
      if e.commit.facts != [] { return Err(ValueError); }
      if !OutboxBinds(e.commit) { return Err(IdentityConflict); }
      if e.Key() in db.events {
        if db.events[e.Key()] != EventRow7(e.eventHash, CommitDigest(e.commit), e.commit.state.version) {
          return Err(IdentityConflict);
        }
        return LoadState(db, e.Lead());
      }
      if e.commit.state.version != e.expected + 1 { return Err(ValueError); }
      if e.Lead() !in db.states { return Err(StateNotFound); }
      var row := db.states[e.Lead()];
      if row.version != e.expected || row.fencingToken != e.token { return Err(ConcurrencyConflict); }
      var saved := db;
      var s := e.commit.state;
      db := db.(states := db.states[e.Lead() := StateRow(s.version, Canonical(s), StateDigest(s), row.fencingToken)]);
      var ok := VersionFree(db.events, e);
      if ok {
        db := db.(events := db.events[e.Key() := EventRow7(e.eventHash, CommitDigest(e.commit), s.version)]);
        ok := InsertCommands(e);
      }
      if ok { ok := InsertMessages(e); }
      if !ok {
        db := saved;
        return Err(IdentityConflict);
      }
      return Ok(Base.VersionedState(s, s.version, StateDigest(s)));
    }

    method InsertCommands(e: EventCommit) returns (ok: bool)
      modifies this
      ensures ok <==> Commands7Insertable(old(db).commands, e, |e.commit.commands|)
      ensures ok ==> db == old(db).(commands := WithCommands7(old(db).commands, e, |e.commit.commands|))
    {
      ghost var db0 := db;
      for i := 0 to |e.commit.commands|
        invariant db == db0.(commands := WithCommands7(db0.commands, e, i))
        invariant Commands7Insertable(db0.commands, e, i)
      {
        if !Command7Insertable(db.commands, e, i) { return false; }
        var c := e.commit.commands[i];
        db := db.(commands := db.commands[c.commandId := CommandRow7(e.Key(), c)]);
      }
      return true;
    }

    method InsertMessages(e: EventCommit) returns (ok: bool)
      modifies this
      ensures ok <==> MessagesInsertable(old(db).outbox, e, |e.commit.outbox|)
      ensures ok ==> db == old(db).(outbox := WithMessages(old(db).outbox, e, |e.commit.outbox|))
    {
      ghost var db0 := db;
      for i := 0 to |e.commit.outbox|
        invariant db == db0.(outbox := WithMessages(db0.outbox, e, i))
        invariant MessagesInsertable(db0.outbox, e, i)
      {
        if !MessageInsertable(db.outbox, e, i) { return false; }
        var m := e.commit.outbox[i];
        db := db.(outbox := db.outbox[m.messageId := MessageRow7(e.Key(), m)]);
      }
      return true;
    }
  }
}
