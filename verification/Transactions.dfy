/** Nested transactions: a connection with one BEGIN and numbered savepoints over
    an undo journal, against the meaning they are for, where every scope
    remembers the store at its entry and an exception puts it back. */
module Transactions {
  import opened Options

  type Key = nat
  type Store = map<Key, string>

  /** A program over the store. `Guard` reads a clock; `Scope` is
      `with self._transaction()`; `Catch` is try/except. */
  datatype Program =
    | Skip
    | Put(key: Key, cell: Option<string>)
    | Raise
    | Guard(now: nat, deadline: nat)
    | Then(first: Program, second: Program)
    | Scope(body: Program)
    | Catch(attempt: Program, handler: Program)

  function Write(db: Store, key: Key, cell: Option<string>): Store {
    match cell
    case Some(v) => db[key := v]
    case None => db - {key}
  }

  function Read(db: Store, key: Key): Option<string> {
    if key in db then Some(db[key]) else None
  }

  // -------------------------------------------------- snapshots: the meaning

  datatype Outcome = Outcome(db: Store, raised: bool)

  function Meaning(p: Program, db: Store): Outcome {
    match p
    case Skip => Outcome(db, false)
    case Put(key, cell) => Outcome(Write(db, key, cell), false)
    case Raise => Outcome(db, true)
    case Guard(now, deadline) => Outcome(db, now >= deadline)
    case Then(first, second) =>
      var o := Meaning(first, db);
      if o.raised then o else Meaning(second, o.db)
    case Scope(body) =>
      var o := Meaning(body, db);
      if o.raised then Outcome(db, true) else o
    case Catch(attempt, handler) =>
      var o := Meaning(attempt, db);
      if o.raised then Meaning(handler, o.db) else o
  }

  // ------------------------------------------- journal: what the code drives

  /** The journal keeps, for every write, the cell it overwrote. */
  datatype Undo = Undo(key: Key, before: Option<string>)

  datatype Savepoint = Savepoint(name: nat, mark: nat)

  datatype Connection = Connection(
    db: Store, inTransaction: bool, journal: seq<Undo>, savepoints: seq<Savepoint>, counter: nat)

  /** The store after undoing the journal down to `mark` entries. */
  function Undone(db: Store, journal: seq<Undo>, mark: nat): Store
    requires mark <= |journal|
    decreases |journal|
  {
    if |journal| == mark then db
    else
      var last := journal[|journal| - 1];
      Undone(Write(db, last.key, last.before), journal[..|journal| - 1], mark)
  }

  /** The position of the last savepoint of that name, or nothing. */
  function Find(savepoints: seq<Savepoint>, name: nat): Option<nat> {
    if savepoints == [] then None
    else if savepoints[|savepoints| - 1].name == name then Some(|savepoints| - 1)
    else Find(savepoints[..|savepoints| - 1], name)
  }

  function Begin(c: Connection): Connection {
    c.(inTransaction := true, journal := [], savepoints := [])
  }

  function Commit(c: Connection): Connection {
    c.(inTransaction := false, journal := [], savepoints := [])
  }

  function Rollback(c: Connection): Connection {
    c.(db := Undone(c.db, c.journal, 0), inTransaction := false, journal := [], savepoints := [])
  }

  function Save(c: Connection, name: nat): Connection {
    c.(savepoints := c.savepoints + [Savepoint(name, |c.journal|)])
  }

  /** ROLLBACK TO undoes the writes since the savepoint and keeps it. */
  function RollbackTo(c: Connection, name: nat): Connection {
    var at := Find(c.savepoints, name);
    if at.None? || at.value >= |c.savepoints| || c.savepoints[at.value].mark > |c.journal| then c
    else
      var mark := c.savepoints[at.value].mark;
      c.(db := Undone(c.db, c.journal, mark), journal := c.journal[..mark], savepoints := c.savepoints[..at.value + 1])
  }

  /** RELEASE forgets the savepoint and those inside it. */
  function Release(c: Connection, name: nat): Connection {
    var at := Find(c.savepoints, name);
    if at.None? || at.value >= |c.savepoints| then c else c.(savepoints := c.savepoints[..at.value])
  }

  datatype Execution = Execution(c: Connection, raised: bool)

  /** `_transaction`: a savepoint inside a transaction, BEGIN outside one. */
  function Execute(p: Program, c: Connection): Execution {
    match p
    case Skip => Execution(c, false)
    case Put(key, cell) =>
      Execution(c.(db := Write(c.db, key, cell),
                   journal := if c.inTransaction then c.journal + [Undo(key, Read(c.db, key))] else c.journal), false)
    case Raise => Execution(c, true)
    case Guard(now, deadline) => Execution(c, now >= deadline)
    case Then(first, second) =>
      var e := Execute(first, c);
      if e.raised then e else Execute(second, e.c)
    case Scope(body) =>
      if c.inTransaction then
        var name := c.counter + 1;
        var e := Execute(body, Save(c.(counter := name), name));
        if e.raised then Execution(Release(RollbackTo(e.c, name), name), true)
        else Execution(Release(e.c, name), false)
      else
        var e := Execute(body, Begin(c));
        if e.raised then Execution(Rollback(e.c), true) else Execution(Commit(e.c), false)
    case Catch(attempt, handler) =>
      var e := Execute(attempt, c);
      if e.raised then Execute(handler, e.c) else e
  }

  // ------------------------------------------------------------ refinement

  /** Savepoint names are older than the counter and marks lie in the journal. */
  ghost predicate Sound(c: Connection) {
    && (forall i :: 0 <= i < |c.savepoints| ==> c.savepoints[i].name <= c.counter && c.savepoints[i].mark <= |c.journal|)
    && (!c.inTransaction ==> c.journal == [] && c.savepoints == [])
  }

  /** `c'` continues `c`: same open scopes, and undoing what was added gives `c` back. */
  ghost predicate Continues(c: Connection, c': Connection) {
    && Sound(c') && c'.inTransaction == c.inTransaction && c'.savepoints == c.savepoints
    && c.counter <= c'.counter
    && |c.journal| <= |c'.journal| && c'.journal[..|c.journal|] == c.journal
    && (c.inTransaction ==> Undone(c'.db, c'.journal, |c.journal|) == c.db)
  }

  lemma WriteUndone(db: Store, key: Key, cell: Option<string>)
    ensures Write(Write(db, key, cell), key, Read(db, key)) == db
  {
  }

  /** Undoing in two stages. */
  lemma {:induction false} UndoneInStages(db: Store, journal: seq<Undo>, middle: nat, mark: nat)
    requires mark <= middle <= |journal|
    ensures Undone(db, journal, mark) == Undone(Undone(db, journal, middle), journal[..middle], mark)
    decreases |journal|
  {
    if |journal| == middle {
      assert journal[..middle] == journal;
    } else {
      var last := journal[|journal| - 1];
      assert journal[..|journal| - 1][..middle] == journal[..middle];
      UndoneInStages(Write(db, last.key, last.before), journal[..|journal| - 1], middle, mark);
    }
  }

  lemma ContinuesTransitively(c: Connection, c': Connection, c'': Connection)
    requires Sound(c) && Continues(c, c') && Continues(c', c'')
    ensures Continues(c, c'')
  {
    assert c''.journal[..|c.journal|] == c''.journal[..|c'.journal|][..|c.journal|];
    if c.inTransaction { UndoneInStages(c''.db, c''.journal, |c'.journal|, |c.journal|); }
  }

  lemma PutContinues(c: Connection, key: Key, cell: Option<string>)
    requires Sound(c)
    ensures Continues(c, Execute(Put(key, cell), c).c)
  {
    var c' := Execute(Put(key, cell), c).c;
    if c.inTransaction {
      WriteUndone(c.db, key, cell);
      assert c'.journal[..|c.journal|] == c.journal;
    }
  }

  /** Leaving a savepoint scope: the scope's own savepoint is the one found. */
  lemma SavepointFound(c: Connection, inner: Connection, name: nat)
    requires Sound(c) && c.inTransaction && name == c.counter + 1
    requires Continues(Save(c.(counter := name), name), inner)
    ensures Find(inner.savepoints, name) == Some(|c.savepoints|)
    ensures Continues(c, Release(inner, name)) && Release(inner, name).db == inner.db
    ensures var back := Release(RollbackTo(inner, name), name); Continues(c, back) && back.db == c.db
  {
    var saved := Save(c.(counter := name), name);
    assert inner.savepoints == saved.savepoints && saved.journal == c.journal;
    assert inner.savepoints[..|c.savepoints|] == c.savepoints;
    var to := RollbackTo(inner, name);
    assert to.db == c.db && to.journal == c.journal;
    assert to.savepoints == saved.savepoints;
    assert Find(to.savepoints, name) == Some(|c.savepoints|);
    assert Undone(c.db, c.journal, |c.journal|) == c.db;
  }

  /** The journalled connection computes exactly the meaning with snapshots: at
      any depth, whatever is raised or caught, the store and the outcome agree,
      and the scopes that were open are open again. */
  lemma {:induction false} ExecutionIsMeaning(p: Program, c: Connection)
    requires Sound(c)
    ensures var e := Execute(p, c);
            Continues(c, e.c) && Outcome(e.c.db, e.raised) == Meaning(p, c.db)
    decreases p
  {
    match p
    case Put(key, cell) => PutContinues(c, key, cell);
    case Then(first, second) =>
      ExecutionIsMeaning(first, c);
      var e := Execute(first, c);
      if !e.raised {
        ExecutionIsMeaning(second, e.c);
        ContinuesTransitively(c, e.c, Execute(second, e.c).c);
      }
    case Catch(attempt, handler) =>
      ExecutionIsMeaning(attempt, c);
      var e := Execute(attempt, c);
      if e.raised {
        ExecutionIsMeaning(handler, e.c);
        ContinuesTransitively(c, e.c, Execute(handler, e.c).c);
      }
    case Scope(body) =>
      if c.inTransaction {
        var name := c.counter + 1;
        var saved := Save(c.(counter := name), name);
        ExecutionIsMeaning(body, saved);
        SavepointFound(c, Execute(body, saved).c, name);
      } else {
        ExecutionIsMeaning(body, Begin(c));
      }
    case _ => assert Undone(c.db, c.journal, |c.journal|) == c.db;
  }

  /** An exception leaves a scope with exactly the store it was entered with. */
  lemma ScopeRestores(body: Program, c: Connection)
    requires Sound(c) && Execute(Scope(body), c).raised
    ensures Execute(Scope(body), c).c.db == c.db
    ensures Execute(Scope(body), c).c.savepoints == c.savepoints
  {
    ExecutionIsMeaning(Scope(body), c);
  }

  /** `turn_transaction`: the guard runs first and last inside the scope. */
  function TurnTransaction(before: nat, after: nat, deadline: nat, body: Program): Program {
    Scope(Then(Guard(before, deadline), Then(body, Guard(after, deadline))))
  }

  /** A turn's writes stay exactly when its body does not raise and the clock read
      after its last write was before the deadline (and so was the first). */
  lemma TurnCommitsBeforeDeadline(before: nat, after: nat, deadline: nat, body: Program, c: Connection)
    requires Sound(c)
    ensures var e := Execute(TurnTransaction(before, after, deadline, body), c);
            && (!e.raised <==> before < deadline && after < deadline && !Meaning(body, c.db).raised)
            && e.c.db == if e.raised then c.db else Meaning(body, c.db).db
  {
    ExecutionIsMeaning(TurnTransaction(before, after, deadline, body), c);
    var o := Meaning(body, c.db);
    assert Meaning(Then(body, Guard(after, deadline)), c.db) ==
           if o.raised then o else Outcome(o.db, after >= deadline);
    assert Meaning(Then(Guard(before, deadline), Then(body, Guard(after, deadline))), c.db) ==
           if before >= deadline then Outcome(c.db, true) else Meaning(Then(body, Guard(after, deadline)), c.db);
  }

  /** A conflict caught inside an outer scope: the inner scope's writes are gone,
      the outer scope's earlier writes are kept, and the handler runs on them. */
  lemma CaughtConflictKeepsOuterWrites(outer: Program, inner: Program, handler: Program, c: Connection)
    requires Sound(c) && !Meaning(outer, c.db).raised && Meaning(inner, Meaning(outer, c.db).db).raised
    requires !Meaning(handler, Meaning(outer, c.db).db).raised
    ensures var e := Execute(Scope(Then(outer, Catch(Scope(inner), handler))), c);
            !e.raised && e.c.db == Meaning(handler, Meaning(outer, c.db).db).db
  {
    ExecutionIsMeaning(Scope(Then(outer, Catch(Scope(inner), handler))), c);
    var db := Meaning(outer, c.db).db;
    assert Meaning(Scope(inner), db) == Outcome(db, true);
    assert Meaning(Catch(Scope(inner), handler), db) == Meaning(handler, db);
    assert Meaning(Then(outer, Catch(Scope(inner), handler)), c.db) == Meaning(handler, db);
  }
}
