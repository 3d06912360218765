/** A concrete history in which two coordinators complete one event. */
module CoordinatorRace {
  import opened Options
  import opened Tables
  import opened Phase7Store
  import opened Coordinator
  import opened CoordinatorRuns
  import Base = BoundaryStore

  const LEAD: Id := Id("lead")
  const ENV: Envelope := Envelope(LEAD, Id("event"), OpaqueDigest("content"), 10)
  const START: BoundaryState := Base.EmptyState(LEAD)

  /** The kernel leaves the state as it is and asks for nothing. */
  const DECISION: Decision := Decision(START, 0, [], [], [])

  const PLAN: BoundaryState := START.(version := 1, processedEventIds := [Id("event")])

  /** Both look before either commits, and the one fenced first decides last. */
  const RACE: seq<Action> := [
    Arrive(0, ENV), Arrive(1, ENV), Look(0), Look(1), Fence(0, Native, 1, 1), Fence(1, Native, 2, 2),
    Decide(1, DECISION, 3, 3, 3), Decide(0, DECISION, 4, 4, 4)]

  function Current(): VersionedState {
    Base.VersionedState(START, 0, StateDigest(START))
  }

  /** Both have read that the event is new. */
  lemma BothLook() returns (w: System)
    ensures w == System(EMPTY_DB7, map[0 := Turn(ENV, New), 1 := Turn(ENV, New)], [])
    ensures From(EMPTY, RACE) == From(w, RACE[4..])
  {
    var w1 := After(EMPTY, RACE[0]);
    var w2 := After(w1, RACE[1]);
    var w3 := After(w2, RACE[2]);
    w := After(w3, RACE[3]);
    Four(EMPTY, RACE);
    assert w.turns == map[0 := Turn(ENV, New), 1 := Turn(ENV, New)];
  }

  lemma Four(w: System, actions: seq<Action>)
    requires |actions| >= 4
    ensures From(w, actions) == From(After(After(After(After(w, actions[0]), actions[1]), actions[2]), actions[3]), actions[4..])
  {
    assert actions[1..][1..] == actions[2..] && actions[2..][1..] == actions[3..] && actions[3..][1..] == actions[4..];
    assert actions[1..][0] == actions[1] && actions[2..][0] == actions[2] && actions[3..][0] == actions[3];
    var a, b := After(w, actions[0]), After(After(w, actions[0]), actions[1]);
    var c := After(b, actions[2]);
    assert From(w, actions) == From(a, actions[1..]) == From(b, actions[2..]) == From(c, actions[3..]);
  }

  function Row(token: nat): StateRow {
    StateRow(0, Canonical(START), StateDigest(START), token)
  }

  /** The lead gets its genesis row with token 1, then token 2. */
  lemma BothFence(w: System) returns (w': System)
    requires w == System(EMPTY_DB7, map[0 := Turn(ENV, New), 1 := Turn(ENV, New)], [])
    ensures w' == After(After(w, RACE[4]), RACE[5])
    ensures w'.db == EMPTY_DB7.(states := map[LEAD := Row(2)]) && w'.advanced == []
    ensures w'.turns == map[0 := Turn(ENV, Fenced(Current(), 1)), 1 := Turn(ENV, Fenced(Current(), 2))]
  {
    var w1 := After(w, RACE[4]);
    assert w1.db.states == map[LEAD := Row(1)];
    assert w1.turns == map[0 := Turn(ENV, Fenced(Current(), 1)), 1 := Turn(ENV, New)];
    w' := After(w1, RACE[5]);
    assert w'.db.states == map[LEAD := Row(2)];
  }

  /** The commit of the decision, whatever the token. */
  lemma CommitIsPlan(token: nat)
    ensures ValidDecision(Current(), ENV.event, DECISION)
    ensures CommitOf(ENV, Current(), token, DECISION)
            == EventCommit(ENV.event, ENV.contentHash, 0, token, BoundaryCommit(PLAN, [], [], []))
  {
    assert [] + [ENV.event] == [ENV.event];
  }

  /** The turn with the newest token advances the lead. */
  lemma NewestDecides(w: System) returns (w': System)
    requires w.db == EMPTY_DB7.(states := map[LEAD := Row(2)])
    requires w.turns == map[0 := Turn(ENV, Fenced(Current(), 1)), 1 := Turn(ENV, Fenced(Current(), 2))] && w.advanced == []
    ensures w' == After(w, RACE[6]) && w'.turns == w.turns[1 := Turn(ENV, Returned(PLAN, false))]
    ensures w'.db == Advanced7(w.db, CommitOf(ENV, Current(), 2, DECISION))
  {
    w' := After(w, RACE[6]);
    CommitIsPlan(2);
    assert CommitTurn(w.db, ENV, Current(), 2, DECISION, 3, 3, 3).result == Ok(PLAN);
  }

  /** The older one holds the identical commit and returns it too. */
  lemma OlderReturns(w: System, db: Db7)
    requires db == EMPTY_DB7.(states := map[LEAD := Row(2)]) && w.db == Advanced7(db, CommitOf(ENV, Current(), 2, DECISION))
    requires w.turns == map[0 := Turn(ENV, Fenced(Current(), 1)), 1 := Turn(ENV, Returned(PLAN, false))]
    ensures After(w, RACE[7]) == w.(turns := w.turns[0 := Turn(ENV, Returned(PLAN, false))])
  {
    CommitIsPlan(1);
    CommitIsPlan(2);
    assert CommitTurn(w.db, ENV, Current(), 1, DECISION, 4, 4, 4).result == Ok(PLAN);
    assert After(w, RACE[7]).advanced == w.advanced;
  }

  /** Two coordinators return a plan of their own for one event, and the lead
      advanced once. */
  lemma TwoTurnsReturnOnePlan()
    ensures var w := From(EMPTY, RACE);
            && w.turns == map[0 := Turn(ENV, Returned(PLAN, false)), 1 := Turn(ENV, Returned(PLAN, false))]
            && w.advanced == [EventKey(LEAD, ENV.event)]
  {
    var w := BothLook();
    Four(w, RACE[4..]);
    var fenced := BothFence(w);
    var decided := NewestDecides(fenced);
    OlderReturns(decided, fenced.db);
    assert RACE[4..][4..] == [];
  }
}
