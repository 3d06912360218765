/** Any number of coordinators on one store, interleaved between their reads and
    transactions in every way, as if the turn lock excluded nobody. */
module CoordinatorRuns {
  import opened Tables
  import opened Phase7Store
  import opened Coordinator

  datatype Phase =
    | Arrived
    | Duplicate
    | New
    | Fenced(current: VersionedState, token: nat)
    | Returned(state: BoundaryState, duplicate: bool)
    | Raised(error: Error)

  datatype Turn = Turn(env: Envelope, phase: Phase)

  datatype System = System(db: Db7, turns: map<nat, Turn>, advanced: seq<EventKey>)

  datatype Action =
    | Arrive(turn: nat, env: Envelope)
    | Look(turn: nat)
    | Reload(turn: nat)
    | Fence(turn: nat, source: Source, before: Instant, after: Instant)
    | Decide(turn: nat, d: Decision, committedAt: Instant, before: Instant, after: Instant)
    | Fail(turn: nat, error: Error)

  function Move(w: System, t: nat, ph: Phase): System
    requires t in w.turns
  {
    w.(turns := w.turns[t := w.turns[t].(phase := ph)])
  }

  /** The first read: was this event committed before? */
  function Looked(w: System, t: nat): System
    requires t in w.turns
  {
    var env := w.turns[t].env;
    var key := EventKey(env.lead, env.event);
    if key !in w.db.events then Move(w, t, New)
    else if w.db.events[key].eventHash != env.contentHash then Move(w, t, Raised(TurnEventConflict))
    else Move(w, t, Duplicate)
  }

  /** The second read of a duplicate. */
  function Reloaded(w: System, t: nat): System
    requires t in w.turns
  {
    var r := LoadState(w.db, w.turns[t].env.lead);
    if r.Ok? then Move(w, t, Returned(r.value.state, true)) else Move(w, t, Raised(r.error))
  }

  function AfterFence(w: System, t: nat, source: Source, before: Instant, after: Instant): System
    requires t in w.turns
  {
    var s := FenceTurn(w.db, w.turns[t].env, source, before, after);
    if s.result.Ok? then Move(w.(db := s.db), t, Fenced(s.result.value.0, s.result.value.1))
    else Move(w.(db := s.db), t, Raised(s.result.error))
  }

  function AfterDecision(w: System, t: nat, current: VersionedState, token: nat, d: Decision,
                         committedAt: Instant, before: Instant, after: Instant): System
    requires t in w.turns
  {
    var env := w.turns[t].env;
    var s := CommitTurn(w.db, env, current, token, d, committedAt, before, after);
    var w1 := w.(db := s.db, advanced := if s.db != w.db then w.advanced + [EventKey(env.lead, env.event)] else w.advanced);
    if s.result.Ok? then Move(w1, t, Returned(s.result.value, false)) else Move(w1, t, Raised(s.result.error))
  }

  function After(w: System, a: Action): System {
    match a
    case Arrive(t, env) => if t in w.turns then w else w.(turns := w.turns[t := Turn(env, Arrived)])
    case Look(t) => if t in w.turns && w.turns[t].phase == Arrived then Looked(w, t) else w
    case Reload(t) => if t in w.turns && w.turns[t].phase == Duplicate then Reloaded(w, t) else w
    case Fence(t, source, before, after) =>
      if t in w.turns && w.turns[t].phase == New then AfterFence(w, t, source, before, after) else w
    case Decide(t, d, committedAt, before, after) =>
      if t in w.turns && w.turns[t].phase.Fenced?
      then AfterDecision(w, t, w.turns[t].phase.current, w.turns[t].phase.token, d, committedAt, before, after) else w
    case Fail(t, error) =>
      if t in w.turns && !w.turns[t].phase.Returned? && !w.turns[t].phase.Raised? then Move(w, t, Raised(error)) else w
  }

  function From(w: System, actions: seq<Action>): System
    decreases |actions|
  {
    if actions == [] then w else From(After(w, actions[0]), actions[1..])
  }

  const EMPTY: System := System(EMPTY_DB7, map[], [])

  // ------------------------------------------------------------- invariant

  function EventsOf(events: map<EventKey, EventRow7>, lead: Id): set<EventKey> {
    set k | k in events && k.lead == lead
  }

  function VersionOf(db: Db7, lead: Id): nat {
    if lead in db.states then db.states[lead].version else 0
  }

  /** A fenced turn holds a state of its own lead. */
  predicate TurnOk(t: Turn) {
    t.phase.Fenced? ==> t.phase.current.state.leadKey == t.env.lead && t.phase.token >= 1
  }

  ghost predicate Inv(w: System) {
    && (forall lead {:trigger EventsOf(w.db.events, lead)} :: |EventsOf(w.db.events, lead)| == VersionOf(w.db, lead))
    && (forall k :: multiset(w.advanced)[k] == if k in w.db.events then 1 else 0)
    && (forall t :: t in w.turns ==> TurnOk(w.turns[t]))
  }

  lemma FencingKeepsInv(w: System, db': Db7, lead: Id, source: Source)
    requires Inv(w) && OnlyFence(w.db, db', lead, source)
    ensures Inv(w.(db := db'))
  {
    forall l ensures |EventsOf(db'.events, l)| == VersionOf(db', l) {
      assert |EventsOf(w.db.events, l)| == VersionOf(w.db, l);
    }
  }

  lemma AdvancingKeepsInv(w: System, e: EventCommit)
    requires Inv(w) && Phase7Store.Advances(w.db, e)
    ensures Inv(w.(db := Advanced7(w.db, e), advanced := w.advanced + [e.Key()]))
  {
    var db' := Advanced7(w.db, e);
    forall l ensures |EventsOf(db'.events, l)| == VersionOf(db', l) {
      assert |EventsOf(w.db.events, l)| == VersionOf(w.db, l);
      if l == e.Lead() {
        assert EventsOf(db'.events, l) == EventsOf(w.db.events, l) + {e.Key()};
      } else {
        assert EventsOf(db'.events, l) == EventsOf(w.db.events, l);
      }
    }
  }

  lemma MovingKeepsInv(w: System, t: nat, ph: Phase)
    requires Inv(w) && t in w.turns && TurnOk(w.turns[t].(phase := ph))
    ensures Inv(Move(w, t, ph))
  {
    assert Move(w, t, ph).db == w.db;
    forall l ensures |EventsOf(Move(w, t, ph).db.events, l)| == VersionOf(w.db, l) {
      assert |EventsOf(w.db.events, l)| == VersionOf(w.db, l);
    }
  }

  lemma AfterFenceKeepsInv(w: System, t: nat, source: Source, before: Instant, after: Instant)
    requires Inv(w) && t in w.turns
    ensures Inv(AfterFence(w, t, source, before, after))
  {
    var env := w.turns[t].env;
    var s := FenceTurn(w.db, env, source, before, after);
    FenceTurnOnlyFences(w.db, env, source, before, after);
    FencingKeepsInv(w, s.db, env.lead, source);
    var ph := AfterFence(w, t, source, before, after).turns[t].phase;
    MovingKeepsInv(w.(db := s.db), t, ph);
  }

  lemma AfterDecisionKeepsInv(w: System, t: nat, current: VersionedState, token: nat, d: Decision,
                              committedAt: Instant, before: Instant, after: Instant)
    requires Inv(w) && t in w.turns && current.state.leadKey == w.turns[t].env.lead
    ensures Inv(AfterDecision(w, t, current, token, d, committedAt, before, after))
  {
    var env := w.turns[t].env;
    var s := CommitTurn(w.db, env, current, token, d, committedAt, before, after);
    var w' := AfterDecision(w, t, current, token, d, committedAt, before, after);
    CommitTurnIsAtomic(w.db, env, current, token, d, committedAt, before, after);
    if s.db != w.db {
      AdvancingKeepsInv(w, CommitOf(env, current, token, d));
    }
    MovingKeepsInv(w.(db := w'.db, advanced := w'.advanced), t, w'.turns[t].phase);
  }

  lemma AfterKeepsInv(w: System, a: Action)
    requires Inv(w)
    ensures Inv(After(w, a))
  {
    match a
    case Arrive(t, env) =>
      forall l ensures |EventsOf(After(w, a).db.events, l)| == VersionOf(w.db, l) {
        assert |EventsOf(w.db.events, l)| == VersionOf(w.db, l);
      }
    case Look(t) => if After(w, a) != w { MovingKeepsInv(w, t, After(w, a).turns[t].phase); }
    case Reload(t) => if After(w, a) != w { MovingKeepsInv(w, t, After(w, a).turns[t].phase); }
    case Fence(t, source, before, after) => if After(w, a) != w { AfterFenceKeepsInv(w, t, source, before, after); }
    case Decide(t, d, committedAt, before, after) =>
      if After(w, a) != w {
        assert TurnOk(w.turns[t]);
        AfterDecisionKeepsInv(w, t, w.turns[t].phase.current, w.turns[t].phase.token, d, committedAt, before, after);
      }
    case Fail(t, error) => if After(w, a) != w { MovingKeepsInv(w, t, Raised(error)); }
  }

  lemma {:induction false} FromKeepsInv(w: System, actions: seq<Action>)
    requires Inv(w)
    ensures Inv(From(w, actions))
    decreases |actions|
  {
    if actions != [] {
      AfterKeepsInv(w, actions[0]);
      FromKeepsInv(After(w, actions[0]), actions[1..]);
    }
  }

  lemma EmptyInv()
    ensures Inv(EMPTY)
  {
    forall l ensures |EventsOf(EMPTY.db.events, l)| == VersionOf(EMPTY.db, l) { assert EventsOf(EMPTY.db.events, l) == {}; }
  }

  // -------------------------------------------------------------- theorems

  /** However the coordinators interleave, each event advanced its lead exactly
      once if it is stored and never otherwise, and a lead has as many events as
      its version says. */
  lemma EventsCommitOnce(actions: seq<Action>, lead: Id, event: Id)
    ensures var w := From(EMPTY, actions);
            && multiset(w.advanced)[EventKey(lead, event)] <= 1
            && (multiset(w.advanced)[EventKey(lead, event)] == 1 <==> EventKey(lead, event) in w.db.events)
            && |EventsOf(w.db.events, lead)| == VersionOf(w.db, lead)
  {
    EmptyInv();
    FromKeepsInv(EMPTY, actions);
  }

  /** Nothing but a fenced turn's commit, returning in time, touches states, events,
      commands or the outbox, apart from a fence with its genesis row; and a step
      that leaves its turn raised changes nothing. */
  lemma OnlyReturnedTurnsWrite(w: System, a: Action)
    requires Inv(w)
    ensures var w' := After(w, a);
            w'.db != w.db ==>
              && a.turn in w.turns && a.turn in w'.turns
              && match w'.turns[a.turn].phase
                 case Fenced(_, _) => a.Fence? && OnlyFence(w.db, w'.db, w.turns[a.turn].env.lead, a.source)
                 case Returned(_, duplicate) => a.Decide? && !duplicate && a.after < w.turns[a.turn].env.deadline
                 case _ => false
  {
    if a.Decide? && a.turn in w.turns && w.turns[a.turn].phase.Fenced? {
      var t := w.turns[a.turn];
      assert TurnOk(t);
      CommitTurnIsAtomic(w.db, t.env, t.phase.current, t.phase.token, a.d, a.committedAt, a.before, a.after);
    } else if a.Fence? && a.turn in w.turns {
      FenceTurnOnlyFences(w.db, w.turns[a.turn].env, a.source, a.before, a.after);
    }
  }

  /** A fenced turn whose decision is of its own state and in time. */
  predicate InTime(t: Turn, d: Decision, committedAt: Instant, before: Instant, after: Instant)
    requires t.phase.Fenced?
  {
    && ValidDecision(t.phase.current, t.env.event, d)
    && committedAt < t.env.deadline && before < t.env.deadline && after < t.env.deadline
  }

  /** The lead still stands where it was fenced, and every row of the commit is new. */
  predicate StillFenced(db: Db7, e: EventCommit) {
    && e.Lead() in db.states && db.states[e.Lead()].version == e.expected && db.states[e.Lead()].fencingToken == e.token
    && RowsInsertable(db, e)
  }

  /** The very commit was stored before, and nothing has advanced the lead since. */
  predicate StoredAndCurrent(db: Db7, e: EventCommit) {
    && e.Key() in db.events
    && db.events[e.Key()] == EventRow7(e.eventHash, CommitDigest(e.commit), e.commit.state.version)
    && LoadState(db, e.Lead()).Ok? && LoadState(db, e.Lead()).value.state == e.commit.state
  }

  /** A fenced turn returns its plan exactly when its decision is valid and in time,
      and either its event is new, the lead stands where it was fenced and no row
      clashes, or its event is stored with the identical commit as the lead's
      current one. The first advances the lead, the second changes nothing. */
  lemma DecisionReturnsExactly(w: System, t: nat, d: Decision, committedAt: Instant, before: Instant, after: Instant)
    requires Inv(w) && t in w.turns && w.turns[t].phase.Fenced?
    ensures var w', ph := After(w, Decide(t, d, committedAt, before, after)), w.turns[t].phase;
            var e := CommitOf(w.turns[t].env, ph.current, ph.token, d);
            && (w'.turns[t].phase.Returned? <==>
                  && InTime(w.turns[t], d, committedAt, before, after)
                  && (if e.Key() in w.db.events then StoredAndCurrent(w.db, e) else StillFenced(w.db, e)))
            && (w'.turns[t].phase.Returned? ==>
                  && w'.turns[t].phase == Returned(e.commit.state, false)
                  && w'.db == if e.Key() in w.db.events then w.db else Advanced7(w.db, e))
  {
    var turn := w.turns[t];
    assert TurnOk(turn);
    if ValidDecision(turn.phase.current, turn.env.event, d) {
      ValidDecisionBinds(turn.env, turn.phase.current, turn.phase.token, d);
    }
  }

  /** The commit of a decision with this state. */
  function Planned(t: Turn, d: Decision, state: BoundaryState): EventCommit
    requires t.phase.Fenced?
  {
    EventCommit(t.env.event, t.env.contentHash, t.phase.current.version, t.phase.token,
                BoundaryCommit(state, d.commands, d.outbox, []))
  }

  /** A plan's fields determine it. */
  lemma PlansOneState(state: BoundaryState, fenced: VersionedState, d: Decision, event: Id)
    ensures PlansState(state, fenced, d, event) <==> state == NextState(fenced, event, d)
  {
    if PlansState(state, fenced, d, event) {
      assert state.processedEventIds == d.state.processedEventIds + [event];
    }
  }

  /** The same in terms of the plan's fields: the turn returns the plan `state` exactly
      when that is the decision's state with the next version and this event added,
      the decision is valid and in time, and either its commit can be stored on the
      lead as it was fenced, or is stored and current. */
  lemma PlanReturnsExactly(w: System, t: nat, d: Decision, committedAt: Instant, before: Instant, after: Instant,
                           state: BoundaryState)
    requires Inv(w) && t in w.turns && w.turns[t].phase.Fenced?
    ensures var w', turn := After(w, Decide(t, d, committedAt, before, after)), w.turns[t];
            var key := EventKey(turn.env.lead, turn.env.event);
            && (w'.turns[t].phase == Returned(state, false) <==>
                  && PlansState(state, turn.phase.current, d, turn.env.event)
                  && InTime(turn, d, committedAt, before, after)
                  && (if key in w.db.events then StoredAndCurrent(w.db, Planned(turn, d, state))
                      else StillFenced(w.db, Planned(turn, d, state))))
            && (w'.turns[t].phase == Returned(state, false) ==>
                  if key in w.db.events then w'.db == w.db
                  else PlanInTables(w.db, w'.db, turn.env, state, d) && PlanRows(w.db, w'.db, turn.env, d))
  {
    var turn := w.turns[t];
    assert TurnOk(turn);
    DecisionReturnsExactly(w, t, d, committedAt, before, after);
    PlansOneState(state, turn.phase.current, d, turn.env.event);
    if After(w, Decide(t, d, committedAt, before, after)).turns[t].phase.Returned? {
      CommitStoresPlan(w.db, turn.env, turn.phase.current, turn.phase.token, d, committedAt, before, after);
    }
  }

  // ------------------------------------------------------- plans of one event

  /** A returned plan is the state of the commit stored for its event. */
  predicate PlanStored(events: map<EventKey, EventRow7>, t: Turn) {
    t.phase.Returned? && !t.phase.duplicate ==>
      var key := EventKey(t.env.lead, t.env.event);
      && key in events && events[key].eventHash == t.env.contentHash
      && events[key].commitHash.CommitDigest? && events[key].commitHash.commit.state == t.phase.state
  }

  ghost predicate PlansStored(w: System) {
    forall t {:trigger PlanStored(w.db.events, w.turns[t])} :: t in w.turns ==> PlanStored(w.db.events, w.turns[t])
  }

  /** Stored events stay as they are. */
  predicate EventsStay(events: map<EventKey, EventRow7>, events': map<EventKey, EventRow7>) {
    forall k :: k in events ==> k in events' && events'[k] == events[k]
  }

  lemma MovingKeepsPlans(w: System, w': System, t: nat)
    requires PlansStored(w) && EventsStay(w.db.events, w'.db.events)
    requires t in w'.turns && w'.turns == w.turns[t := w'.turns[t]] && PlanStored(w'.db.events, w'.turns[t])
    ensures PlansStored(w')
  {
    forall u | u in w'.turns ensures PlanStored(w'.db.events, w'.turns[u]) {
      if u != t { assert PlanStored(w.db.events, w.turns[u]); }
    }
  }

  lemma DecisionKeepsPlans(w: System, t: nat, d: Decision, committedAt: Instant, before: Instant, after: Instant)
    requires Inv(w) && PlansStored(w) && t in w.turns && w.turns[t].phase.Fenced?
    ensures PlansStored(After(w, Decide(t, d, committedAt, before, after)))
  {
    var w', turn := After(w, Decide(t, d, committedAt, before, after)), w.turns[t];
    assert TurnOk(turn);
    DecisionReturnsExactly(w, t, d, committedAt, before, after);
    CommitTurnIsAtomic(w.db, turn.env, turn.phase.current, turn.phase.token, d, committedAt, before, after);
    MovingKeepsPlans(w, w', t);
  }

  lemma AfterKeepsPlans(w: System, a: Action)
    requires Inv(w) && PlansStored(w)
    ensures PlansStored(After(w, a))
  {
    if a.Decide? && a.turn in w.turns && w.turns[a.turn].phase.Fenced? {
      DecisionKeepsPlans(w, a.turn, a.d, a.committedAt, a.before, a.after);
    } else if After(w, a) != w {
      if a.Fence? { FenceTurnOnlyFences(w.db, w.turns[a.turn].env, a.source, a.before, a.after); }
      MovingKeepsPlans(w, After(w, a), a.turn);
    }
  }

  lemma {:induction false} FromKeepsPlans(w: System, actions: seq<Action>)
    requires Inv(w) && PlansStored(w)
    ensures PlansStored(From(w, actions))
    decreases |actions|
  {
    if actions != [] {
      AfterKeepsInv(w, actions[0]);
      AfterKeepsPlans(w, actions[0]);
      FromKeepsPlans(After(w, actions[0]), actions[1..]);
    }
  }

  /** Several turns may return a plan of their own for one event, but in every
      interleaving they were given the same content and return the same state. */
  lemma ReturnedPlansAgree(actions: seq<Action>, t: nat, u: nat)
    requires var turns := From(EMPTY, actions).turns;
             && t in turns && turns[t].phase.Returned? && !turns[t].phase.duplicate
             && u in turns && turns[u].phase.Returned? && !turns[u].phase.duplicate
             && turns[t].env.lead == turns[u].env.lead && turns[t].env.event == turns[u].env.event
    ensures var turns := From(EMPTY, actions).turns;
            turns[t].phase.state == turns[u].phase.state && turns[t].env.contentHash == turns[u].env.contentHash
  {
    var w := From(EMPTY, actions);
    EmptyInv();
    FromKeepsPlans(EMPTY, actions);
    assert PlanStored(w.db.events, w.turns[t]) && PlanStored(w.db.events, w.turns[u]);
  }

  // ---------------------------------------------------------------- duplicates

  /** A turn treated as a duplicate was given the content of the stored event. */
  predicate DuplicateOk(events: map<EventKey, EventRow7>, t: Turn) {
    t.phase.Duplicate? || (t.phase.Returned? && t.phase.duplicate) ==>
      var key := EventKey(t.env.lead, t.env.event);
      key in events && events[key].eventHash == t.env.contentHash
  }

  ghost predicate DuplicatesOk(w: System) {
    forall t {:trigger DuplicateOk(w.db.events, w.turns[t])} :: t in w.turns ==> DuplicateOk(w.db.events, w.turns[t])
  }

  lemma AfterKeepsDuplicates(w: System, a: Action)
    requires Inv(w) && DuplicatesOk(w)
    ensures DuplicatesOk(After(w, a))
  {
    var w' := After(w, a);
    EventsStayAfter(w, a);
    forall t | t in w'.turns ensures DuplicateOk(w'.db.events, w'.turns[t]) {
      if t in w.turns { assert DuplicateOk(w.db.events, w.turns[t]); }
    }
  }

  lemma EventsStayAfter(w: System, a: Action)
    requires Inv(w)
    ensures EventsStay(w.db.events, After(w, a).db.events)
  {
    if a.Decide? && a.turn in w.turns && w.turns[a.turn].phase.Fenced? {
      var turn := w.turns[a.turn];
      assert TurnOk(turn);
      CommitTurnIsAtomic(w.db, turn.env, turn.phase.current, turn.phase.token, a.d, a.committedAt, a.before, a.after);
    } else if a.Fence? && a.turn in w.turns {
      FenceTurnOnlyFences(w.db, w.turns[a.turn].env, a.source, a.before, a.after);
    }
  }

  lemma {:induction false} FromKeepsDuplicates(w: System, actions: seq<Action>)
    requires Inv(w) && DuplicatesOk(w)
    ensures DuplicatesOk(From(w, actions))
    decreases |actions|
  {
    if actions != [] {
      AfterKeepsInv(w, actions[0]);
      AfterKeepsDuplicates(w, actions[0]);
      FromKeepsDuplicates(After(w, actions[0]), actions[1..]);
    }
  }

  /** In every interleaving a turn is answered as a duplicate only if its event was
      stored with the very content the turn was given. */
  lemma DuplicatesWereStored(actions: seq<Action>, t: nat)
    requires t in From(EMPTY, actions).turns
    requires var ph := From(EMPTY, actions).turns[t].phase; ph.Returned? && ph.duplicate
    ensures var w := From(EMPTY, actions); var key := EventKey(w.turns[t].env.lead, w.turns[t].env.event);
            key in w.db.events && w.db.events[key].eventHash == w.turns[t].env.contentHash
  {
    EmptyInv();
    FromKeepsDuplicates(EMPTY, actions);
    assert DuplicateOk(From(EMPTY, actions).db.events, From(EMPTY, actions).turns[t]);
  }
}
