/** Fenced linear history: each lead's receipts form one hash-linked chain that
    ends in the stored state. */
module History {
  import opened Options
  import opened Tables
  import opened TurnWrites
  import opened TurnCommit
  import opened BoundaryStore

  type States = map<Id, StateRow>
  type Events = map<TurnKey, EventRow>

  predicate StateOk(lead: Id, s: StateRow) {
    LoadVersioned(s, lead).Ok?
  }

  /** The stored receipt authenticates its own row. */
  predicate EventOk(k: TurnKey, e: EventRow) {
    && e.receiptJson.Canonical?
    && var r := e.receiptJson.value;
       && ReceiptValid(r) && r.turn == k.turn
       && e.receiptHash == ReceiptDigest(r) && e.eventHash == r.eventHash
       && e.version == r.stateVersion && e.occurredAt == r.committedAt
  }

  /** The receipt names the hash of the receipt one version earlier. */
  ghost predicate Chained(events: Events, k: TurnKey)
    requires k in events && EventOk(k, events[k])
  {
    var previous := events[k].receiptJson.value.previous;
    if events[k].version == 1 then previous.None?
    else exists l :: IsPredecessor(events, l, k) && previous == Some(events[l].receiptHash)
  }

  predicate IsPredecessor(events: Events, l: TurnKey, k: TurnKey) {
    k in events && l in events && l.lead == k.lead && events[l].version + 1 == events[k].version
  }

  ghost predicate HasVersion(events: Events, lead: Id, v: nat) {
    exists k :: IsVersion(events, lead, v, k)
  }

  ghost predicate EventInHistory(states: States, events: Events, k: TurnKey)
    requires k in events
  {
    && k.lead in states
    && 1 <= events[k].version <= states[k.lead].version
    && EventOk(k, events[k]) && Chained(events, k)
    && (events[k].version == states[k.lead].version ==>
          events[k].receiptJson.value.stateHash == states[k.lead].stateHash)
  }

  ghost predicate Linear(states: States, events: Events) {
    && (forall lead :: lead in states ==> StateOk(lead, states[lead]))
    && (forall k :: k in events ==> EventInHistory(states, events, k))
    && (forall lead, v: nat :: lead in states && 1 <= v <= states[lead].version ==> HasVersion(events, lead, v))
    && VersionsUnique(events)
  }

  /** A lead may start from the empty state or from an imported one. */
  lemma GenesisKeepsLinear(db: Db, state: BoundaryState)
    requires Linear(db.states, db.events) && state.leadKey !in db.states && state.version == 0
    ensures Linear(WithGenesis(db, state).states, db.events)
  {
    var states' := WithGenesis(db, state).states;
    forall k | k in db.events ensures EventInHistory(states', db.events, k) {
      assert EventInHistory(db.states, db.events, k);
    }
  }

  lemma AcquiredKeepsLinear(db: Db, lead: Id)
    requires Linear(db.states, db.events) && lead in db.states
    ensures Linear(Acquired(db, lead).states, db.events)
  {
    var states' := Acquired(db, lead).states;
    forall k | k in db.events ensures EventInHistory(states', db.events, k) {
      assert EventInHistory(db.states, db.events, k);
    }
    forall l, v: nat | l in states' && 1 <= v <= states'[l].version ensures HasVersion(db.events, l, v) {
      assert l in db.states && states'[l].version == db.states[l].version;
    }
    forall l | l in states' ensures StateOk(l, states'[l]) { assert StateOk(l, db.states[l]); }
  }

  /** What an accepted commit demands of the two tables of the history. */
  predicate Extends(db: Db, w: TurnWrite) {
    && WritesValid(w) && w.commit.state.version == w.expected + 1
    && w.receipt.stateVersion == w.commit.state.version && w.receipt.stateHash == StateDigest(w.commit.state)
    && w.receipt.committedAt == w.committedAt
    && PreviousOk(db, w) && StateCurrent(db, w) && EventInsertable(db.events, w)
  }

  /** One lead moves on by one version, and one event of that version appears. */
  predicate MovesOn(states: States, events: Events, states': States, events': Events, key: TurnKey) {
    && key.lead in states && key.lead in states' && key !in events && key in events'
    && states' == states[key.lead := states'[key.lead]]
    && events' == events[key := events'[key]]
    && states'[key.lead].version == states[key.lead].version + 1 == events'[key].version
  }

  lemma MovingKeepsEvent(states: States, events: Events, states': States, events': Events, key: TurnKey, k: TurnKey)
    requires MovesOn(states, events, states', events', key)
    requires k in events && EventInHistory(states, events, k)
    ensures EventInHistory(states', events', k)
  {
    if events[k].version > 1 {
      var l :| IsPredecessor(events, l, k) && events[k].receiptJson.value.previous == Some(events[l].receiptHash);
      assert IsPredecessor(events', l, k);
    }
  }

  lemma MovingKeepsVersions(states: States, events: Events, states': States, events': Events, key: TurnKey, lead: Id, v: nat)
    requires MovesOn(states, events, states', events', key)
    requires lead in states' && 1 <= v <= states'[lead].version
    requires v <= states[lead].version ==> HasVersion(events, lead, v)
    ensures HasVersion(events', lead, v)
  {
    if v <= states[lead].version {
      var k :| IsVersion(events, lead, v, k);
      assert IsVersion(events', lead, v, k);
    } else {
      assert IsVersion(events', lead, v, key);
    }
  }

  lemma NewEventInHistory(db: Db, w: TurnWrite)
    requires Extends(db, w)
    ensures EventInHistory(db.states[w.Lead() := NewState(w, db.states[w.Lead()])],
                           db.events[w.Key() := NewEvent(w)], w.Key())
  {
    if w.expected > 0 {
      var l :| l in db.events && IsPreviousEvent(db, w, l);
      assert IsPredecessor(db.events[w.Key() := NewEvent(w)], l, w.Key());
    }
  }

  lemma VersionsStayUnique(events: Events, w: TurnWrite)
    requires VersionsUnique(events) && EventInsertable(events, w)
    ensures VersionsUnique(events[w.Key() := NewEvent(w)])
  {
    var events' := events[w.Key() := NewEvent(w)];
    forall t, u | t in events' && u in events' && SameVersion(events', t, u) ensures t == u {
      if t in events && u in events { assert SameVersion(events, t, u); }
    }
  }

  lemma MovingKeepsLinear(states: States, events: Events, states': States, events': Events, key: TurnKey)
    requires Linear(states, events) && MovesOn(states, events, states', events', key)
    requires StateOk(key.lead, states'[key.lead]) && EventInHistory(states', events', key)
    requires VersionsUnique(events')
    ensures Linear(states', events')
  {
    forall k | k in events' ensures EventInHistory(states', events', k) {
      if k in events { MovingKeepsEvent(states, events, states', events', key, k); }
    }
    forall lead, v: nat | lead in states' && 1 <= v <= states'[lead].version ensures HasVersion(events', lead, v) {
      MovingKeepsVersions(states, events, states', events', key, lead, v);
    }
  }

  lemma CommittedMovesOn(db: Db, w: TurnWrite)
    requires WritesValid(w) && Accepts(db, w)
    ensures var db' := Committed(db, w);
            && MovesOn(db.states, db.events, db'.states, db'.events, w.Key())
            && StateOk(w.Lead(), db'.states[w.Lead()])
            && EventInHistory(db'.states, db'.events, w.Key())
  {
    NewEventInHistory(db, w);
  }

  lemma CommittedKeepsLinear(db: Db, w: TurnWrite)
    requires Linear(db.states, db.events) && WritesValid(w) && Accepts(db, w)
    ensures Linear(Committed(db, w).states, Committed(db, w).events)
    ensures forall k :: k in db.events && k.lead == w.Lead() ==> db.events[k].version <= w.expected
  {
    var db' := Committed(db, w);
    CommittedMovesOn(db, w);
    VersionsStayUnique(db.events, w);
    MovingKeepsLinear(db.states, db.events, db'.states, db'.events, w.Key());
    forall k | k in db.events && k.lead == w.Lead() ensures db.events[k].version <= w.expected {
      assert EventInHistory(db.states, db.events, k);
    }
  }

  /** A lead's receipts are exactly one per version, 1 up to its state's version. */
  lemma ReceiptsCoverVersions(states: States, events: Events, lead: Id)
    requires Linear(states, events) && lead in states
    ensures |set k | k in events && k.lead == lead| == states[lead].version
  {
    var all := set k | k in events && k.lead == lead;
    forall k | k in all ensures events[k].version <= states[lead].version {
      assert EventInHistory(states, events, k);
    }
    NoVersionZero(states, events, lead);
    CountUpTo(events, lead, states[lead].version);
    assert UpTo(events, lead, states[lead].version) == all;
  }

  function UpTo(events: Events, lead: Id, v: nat): set<TurnKey> {
    set k | k in events && k.lead == lead && events[k].version <= v
  }

  lemma OneMoreVersion(events: Events, lead: Id, v: nat, k: TurnKey)
    requires VersionsUnique(events) && IsVersion(events, lead, v, k) && v > 0
    ensures UpTo(events, lead, v) == UpTo(events, lead, v - 1) + {k} && k !in UpTo(events, lead, v - 1)
  {
    forall l | l in UpTo(events, lead, v) ensures l in UpTo(events, lead, v - 1) || l == k {
      if events[l].version == v { assert SameVersion(events, k, l); }
    }
  }

  lemma NoVersionZero(states: States, events: Events, lead: Id)
    requires Linear(states, events)
    ensures UpTo(events, lead, 0) == {}
  {
    forall k | k in events ensures events[k].version > 0 { assert EventInHistory(states, events, k); }
  }

  lemma {:induction false} CountUpTo(events: Events, lead: Id, v: nat)
    requires VersionsUnique(events) && UpTo(events, lead, 0) == {}
    requires forall u: nat :: 1 <= u <= v ==> HasVersion(events, lead, u)
    ensures |UpTo(events, lead, v)| == v
  {
    if v > 0 {
      CountUpTo(events, lead, v - 1);
      assert HasVersion(events, lead, v);
      var k :| IsVersion(events, lead, v, k);
      OneMoreVersion(events, lead, v, k);
    }
  }

  // ------------------------------------------------ loading by turn id alone

  function TurnsNamed(events: Events, turn: Id): set<TurnKey> {
    set k | k in events && k.turn == turn
  }

  /** A turn id that one lead alone committed loads that turn's receipt. */
  lemma OnlyTurnLoads(states: States, events: Events, turn: Id, k: TurnKey)
    requires k in events && EventInHistory(states, events, k) && TurnsNamed(events, turn) == {k}
    ensures LoadTurnReceipt(events, turn) == Ok(Some(events[k].receiptJson.value))
  {
    OnlyElement(TurnsNamed(events, turn));
  }

  lemma UnsharedIdLoads(states: States, events: Events, turn: Id)
    requires Linear(states, events) && |TurnsNamed(events, turn)| == 1
    ensures LoadTurnReceipt(events, turn).Ok?
  {
    var k := OnlyTurnNamed(events, turn);
    EventsAreInHistory(states, events, k);
    OnlyTurnLoads(states, events, turn, k);
  }

  lemma OnlyTurnNamed(events: Events, turn: Id) returns (k: TurnKey)
    requires |TurnsNamed(events, turn)| == 1
    ensures k in events && TurnsNamed(events, turn) == {k}
  {
    OnlyElement(TurnsNamed(events, turn));
    k :| k in TurnsNamed(events, turn);
  }

  lemma EventsAreInHistory(states: States, events: Events, k: TurnKey)
    requires Linear(states, events) && k in events
    ensures EventInHistory(states, events, k)
  {
  }

  /** Turn ids are unique per lead only, and `load_turn_receipt` looks for one over
      all leads: it fails exactly when two leads committed the same turn id. */
  lemma LoadFailsExactlyOnSharedIds(states: States, events: Events, turn: Id)
    requires Linear(states, events)
    ensures LoadTurnReceipt(events, turn).Err? <==> |TurnsNamed(events, turn)| > 1
  {
    if |TurnsNamed(events, turn)| == 1 { UnsharedIdLoads(states, events, turn); }
  }

  /** A turn that two leads committed can therefore never be superseded by either. */
  lemma SharedTurnNeverSuperseded(db: Db, w: TurnWrite, i: nat)
    requires i < |w.superseded| && |TurnsNamed(db.events, w.superseded[i])| > 1
    ensures !AllCancellable(db, w) && !Accepts(db, w)
  {
    assert CancelError(db.events, db.outbox, w, w.superseded[i]) == Some(DataCorruption);
  }
}
