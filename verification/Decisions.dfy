/** Which decisions of the kernel a turn accepts, stated by position. */
module Decisions {
  import opened Options
  import opened Tables
  import opened Phase7Store
  import opened Coordinator

  /** The command acts on this workflow: a reservation names it, a settlement names the
      one payment of it. */
  predicate ActsOn(c: Command, payments: seq<Payment>, workflow: Id) {
    if c.kind == Reservation then c.subjectId == workflow
    else exists i :: 0 <= i < |payments| && OnlyPayment(payments, i, c.subjectId) && payments[i].workflowId == workflow
  }

  predicate OnlyPayment(payments: seq<Payment>, i: int, paymentId: Id)
    requires 0 <= i < |payments|
  {
    payments[i].paymentId == paymentId && forall j :: 0 <= j < |payments| && payments[j].paymentId == paymentId ==> j == i
  }

  lemma {:induction false} MatchingNone(payments: seq<Payment>, paymentId: Id)
    ensures Matching(payments, paymentId) == [] <==> forall j :: 0 <= j < |payments| ==> payments[j].paymentId != paymentId
  {
    if payments != [] {
      MatchingNone(payments[1..], paymentId);
      assert payments == [payments[0]] + payments[1..];
    }
  }

  lemma {:induction false} OnlyMatch(payments: seq<Payment>, i: int, paymentId: Id)
    requires 0 <= i < |payments| && OnlyPayment(payments, i, paymentId)
    ensures Matching(payments, paymentId) == [payments[i]]
  {
    var rest := payments[1..];
    if i == 0 {
      forall j | 0 <= j < |rest| ensures rest[j].paymentId != paymentId { assert payments[j + 1] == rest[j]; }
      MatchingNone(rest, paymentId);
    } else {
      assert payments[0].paymentId != paymentId;
      forall j | 0 <= j < |rest| && rest[j].paymentId == paymentId ensures j == i - 1 { assert payments[j + 1] == rest[j]; }
      OnlyMatch(rest, i - 1, paymentId);
    }
  }

  lemma {:induction false} OneMatch(payments: seq<Payment>, paymentId: Id) returns (i: int)
    requires |Matching(payments, paymentId)| == 1
    ensures 0 <= i < |payments| && OnlyPayment(payments, i, paymentId) && Matching(payments, paymentId) == [payments[i]]
  {
    var rest := payments[1..];
    MatchingNone(rest, paymentId);
    if payments[0].paymentId == paymentId {
      i := 0;
      assert forall j :: 0 < j < |payments| ==> payments[j] == rest[j - 1];
    } else {
      i := OneMatch(rest, paymentId);
      forall j | 0 <= j < |payments| && payments[j].paymentId == paymentId ensures j == i + 1 {
        if j > 0 { assert payments[j] == rest[j - 1]; }
      }
      i := i + 1;
    }
  }

  lemma ActsOnIs(c: Command, payments: seq<Payment>, workflow: Id)
    ensures CommandWorkflow(c, payments) == Some(workflow) <==> ActsOn(c, payments, workflow)
  {
    if c.kind != Reservation {
      if |Matching(payments, c.subjectId)| == 1 { var i := OneMatch(payments, c.subjectId); }
      if ActsOn(c, payments, workflow) {
        var i :| 0 <= i < |payments| && OnlyPayment(payments, i, c.subjectId) && payments[i].workflowId == workflow;
        OnlyMatch(payments, i, c.subjectId);
      }
    }
  }

  /** The last command of that id. */
  predicate LastNamed(commands: seq<Command>, i: int, id: Id) {
    0 <= i < |commands| && commands[i].commandId == id && forall j :: i < j < |commands| ==> commands[j].commandId != id
  }

  lemma {:induction false} WorkflowOfLast(id: Id, commands: seq<Command>, payments: seq<Payment>, i: int)
    requires LastNamed(commands, i, id)
    ensures WorkflowOf(id, commands, payments) == CommandWorkflow(commands[i], payments)
  {
    if i < |commands| - 1 {
      WorkflowOfLast(id, commands[..|commands| - 1], payments, i);
    }
  }

  lemma {:induction false} WorkflowHasLast(id: Id, commands: seq<Command>, payments: seq<Payment>) returns (i: int)
    requires WorkflowOf(id, commands, payments).Some?
    ensures LastNamed(commands, i, id)
  {
    if commands[|commands| - 1].commandId == id {
      i := |commands| - 1;
    } else {
      i := WorkflowHasLast(id, commands[..|commands| - 1], payments);
    }
  }

  /** The workflow is the state's own or that of one of its payments. */
  predicate KnownWorkflow(s: BoundaryState, workflow: Id) {
    || (s.workflow.Some? && s.workflow.value.workflowId == workflow)
    || exists i :: 0 <= i < |s.payments| && s.payments[i].workflowId == workflow
  }

  ghost predicate MessageBinds(c: BoundaryCommit, m: OutboxMessage) {
    && KnownWorkflow(c.state, m.workflowId)
    && (m.commandId.Some? ==>
          exists i :: LastNamed(c.commands, i, m.commandId.value) && ActsOn(c.commands[i], c.state.payments, m.workflowId))
  }

  ghost predicate CommandActs(c: BoundaryCommit, i: int)
    requires 0 <= i < |c.commands|
  {
    exists workflow: Id :: ActsOn(c.commands[i], c.state.payments, workflow)
  }

  lemma MessageBindsIs(c: BoundaryCommit, m: OutboxMessage)
    ensures MessageBinds(c, m) <==>
              && IsWorkflow(c.state, m.workflowId)
              && (m.commandId.Some? ==> WorkflowOf(m.commandId.value, c.commands, c.state.payments) == Some(m.workflowId))
  {
    assert KnownWorkflow(c.state, m.workflowId) <==> IsWorkflow(c.state, m.workflowId);
    if m.commandId.Some? {
      var id := m.commandId.value;
      if i :| LastNamed(c.commands, i, id) && ActsOn(c.commands[i], c.state.payments, m.workflowId) {
        WorkflowOfLast(id, c.commands, c.state.payments, i);
        ActsOnIs(c.commands[i], c.state.payments, m.workflowId);
      }
      if WorkflowOf(id, c.commands, c.state.payments) == Some(m.workflowId) {
        var i := WorkflowHasLast(id, c.commands, c.state.payments);
        WorkflowOfLast(id, c.commands, c.state.payments, i);
        ActsOnIs(c.commands[i], c.state.payments, m.workflowId);
      }
    }
  }

  /** `_validate_outbox_bindings` by position: every command acts on some workflow, and
      every message names a workflow of the state, the one its command acts on. */
  ghost predicate Binds(c: BoundaryCommit) {
    && (forall i :: 0 <= i < |c.commands| ==> CommandActs(c, i))
    && (forall i :: 0 <= i < |c.outbox| ==> MessageBinds(c, c.outbox[i]))
  }

  lemma BindsIs(c: BoundaryCommit)
    ensures OutboxBinds(c) <==> Binds(c)
  {
    forall i | 0 <= i < |c.commands| ensures CommandActs(c, i) <==> CommandWorkflow(c.commands[i], c.state.payments).Some? {
      var found := CommandWorkflow(c.commands[i], c.state.payments);
      if found.Some? { ActsOnIs(c.commands[i], c.state.payments, found.value); }
      if workflow: Id :| ActsOn(c.commands[i], c.state.payments, workflow) { ActsOnIs(c.commands[i], c.state.payments, workflow); }
    }
    forall i | 0 <= i < |c.outbox| { MessageBindsIs(c, c.outbox[i]); }
  }

  /** A decision is accepted exactly when it is one on the very state it was given, for
      an event that state has not seen, asks for no reads and reports no facts, reserves
      in its own workflow only, and binds its messages. */
  lemma AcceptedDecisionIs(current: VersionedState, event: Id, d: Decision)
    ensures ValidDecision(current, event, d) <==>
              && d.state.leadKey == current.state.leadKey && d.state.version == current.version
              && (forall i :: 0 <= i < |d.state.processedEventIds| ==> d.state.processedEventIds[i] != event)
              && d.readRequests == 0 && |d.facts| == 0
              && (forall i :: 0 <= i < |d.commands| && d.commands[i].kind == Reservation ==>
                    d.state.workflow.Some? && d.state.workflow.value.workflowId == d.commands[i].subjectId)
              && Binds(BoundaryCommit(d.state, d.commands, d.outbox, []))
  {
    BindsIs(BoundaryCommit(d.state, d.commands, d.outbox, []));
  }

  // ------------------------------------------------- when the rows can be stored

  /** The reservation is for the workflow, or one of its packaged commands. */
  predicate Reserves(c: Command, workflow: Option<Workflow>) {
    && workflow.Some?
    && (c.subjectId == workflow.value.workflowId
        || exists j :: 0 <= j < |workflow.value.packageChildren| && workflow.value.packageChildren[j] == c)
  }

  /** The i-th command's id is new, and a reservation binds its state's workflow. */
  predicate CommandFits(t: map<Id, CommandRow7>, e: EventCommit, i: nat)
    requires i < |e.commit.commands|
  {
    var c := e.commit.commands[i];
    && c.commandId !in t && (forall j :: 0 <= j < i ==> e.commit.commands[j].commandId != c.commandId)
    && (c.kind == Reservation ==> Reserves(c, e.commit.state.workflow))
  }

  /** The i-th message's id and idempotency key are new. */
  predicate MessageFits(t: map<Id, MessageRow7>, e: EventCommit, i: nat)
    requires i < |e.commit.outbox|
  {
    var m := e.commit.outbox[i];
    && m.messageId !in t && (forall k :: k in t ==> t[k].message.idempotencyKey != m.idempotencyKey)
    && (forall j :: 0 <= j < i ==>
          e.commit.outbox[j].messageId != m.messageId && e.commit.outbox[j].idempotencyKey != m.idempotencyKey)
  }

  lemma {:induction false} CommandKeys(t: map<Id, CommandRow7>, e: EventCommit, n: nat)
    requires n <= |e.commit.commands|
    ensures forall k :: k in WithCommands7(t, e, n) <==> k in t || exists j: nat :: j < n && e.commit.commands[j].commandId == k
  {
    if n > 0 { CommandKeys(t, e, n - 1); }
  }

  lemma CommandFitsIs(t: map<Id, CommandRow7>, e: EventCommit, i: nat)
    requires i < |e.commit.commands|
    ensures Command7Insertable(WithCommands7(t, e, i), e, i) <==> CommandFits(t, e, i)
  {
    CommandKeys(t, e, i);
  }

  lemma CommandsFitIs(t: map<Id, CommandRow7>, e: EventCommit)
    ensures Commands7Insertable(t, e, |e.commit.commands|) <==> forall i: nat :: i < |e.commit.commands| ==> CommandFits(t, e, i)
  {
    forall i: nat | i < |e.commit.commands|
      ensures Command7Insertable(WithCommands7(t, e, i), e, i) <==> CommandFits(t, e, i)
    {
      CommandFitsIs(t, e, i);
    }
  }

  /** If the messages so far fit, the table holds the old ones and these. */
  lemma {:induction false} MessageRows(t: map<Id, MessageRow7>, e: EventCommit, n: nat)
    requires n <= |e.commit.outbox| && forall i: nat :: i < n ==> MessageFits(t, e, i)
    ensures forall k :: k in t ==> k in WithMessages(t, e, n) && WithMessages(t, e, n)[k] == t[k]
    ensures forall j: nat {:trigger e.commit.outbox[j]} :: j < n ==>
              e.commit.outbox[j].messageId in WithMessages(t, e, n)
              && WithMessages(t, e, n)[e.commit.outbox[j].messageId].message == e.commit.outbox[j]
    ensures forall k :: k in WithMessages(t, e, n) && k !in t ==> exists j: nat :: j < n && e.commit.outbox[j].messageId == k
  {
    if n > 0 {
      MessageRows(t, e, n - 1);
      assert MessageFits(t, e, n - 1);
    }
  }

  lemma MessageFitsIs(t: map<Id, MessageRow7>, e: EventCommit, i: nat)
    requires i < |e.commit.outbox| && forall j: nat :: j < i ==> MessageFits(t, e, j)
    ensures MessageInsertable(WithMessages(t, e, i), e, i) <==> MessageFits(t, e, i)
  {
    MessageRows(t, e, i);
  }

  lemma {:induction false} MessagesFitIs(t: map<Id, MessageRow7>, e: EventCommit, n: nat)
    requires n <= |e.commit.outbox|
    ensures MessagesInsertable(t, e, n) <==> forall i: nat :: i < n ==> MessageFits(t, e, i)
  {
    if n > 0 {
      MessagesFitIs(t, e, n - 1);
      if forall i: nat :: i < n - 1 ==> MessageFits(t, e, i) { MessageFitsIs(t, e, n - 1); }
    }
  }

  /** The rows of a commit can be stored exactly when no event of the lead has its
      version and each command and message fits beside the stored ones and its own
      predecessors. */
  lemma RowsFitExactly(db: Db7, e: EventCommit)
    ensures RowsInsertable(db, e) <==>
              && (forall k :: k in db.events && k.lead == e.commit.state.leadKey ==> db.events[k].version != e.commit.state.version)
              && (forall i: nat :: i < |e.commit.commands| ==> CommandFits(db.commands, e, i))
              && (forall i: nat :: i < |e.commit.outbox| ==> MessageFits(db.outbox, e, i))
  {
    CommandsFitIs(db.commands, e);
    MessagesFitIs(db.outbox, e, |e.commit.outbox|);
  }
}
