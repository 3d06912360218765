/** Two concrete histories of failing publications: the cleanup after a finished
    publication raises, and a publication runs out of names. */
module EvidenceReuse {
  import opened Options
  import opened EvidenceSteps

  lemma {:induction false} FromAppends(w: World, actions: seq<Action>, a: Action)
    ensures From(w, actions + [a]) == After(From(w, actions), a)
    decreases |actions|
  {
    if actions == [] {
      assert [a][1..] == [];
    } else {
      assert (actions + [a])[1..] == actions[1..] + [a];
      FromAppends(After(w, actions[0]), actions[1..], a);
    }
  }

  /** One more action of the history. */
  lemma Then(actions: seq<Action>, w: World, a: Action) returns (longer: seq<Action>, w': World)
    requires w == Run(actions)
    ensures longer == actions + [a] && w' == After(w, a) == Run(longer)
  {
    longer, w' := actions + [a], After(w, a);
    FromAppends(EMPTY, actions, a);
  }

  const N: Name := "0f1e2d3c4b5a69788796a5b4c3d2e1f0"

  lemma Enters(actions: seq<Action>, w: World, p: Pid, order: seq<Name>) returns (longer: seq<Action>, w': World)
    requires w == Run(actions) && p in w.procs
    requires var ph := w.procs[p].phase; ph.Arriving? || ph.Published? || ph.Waiting?
    ensures w' == Enter(w, p, order) == Run(longer)
  {
    longer, w' := Then(actions, w, Act(p, N, 1, order));
  }

  lemma Prepares(actions: seq<Action>, w: World, p: Pid) returns (longer: seq<Action>, w': World)
    requires w == Run(actions) && p in w.procs
    requires var ph := w.procs[p].phase; ph.Entered? || ph.Missing? || ph.HasStage? || ph.HasOwner? || ph.HasLock? || ph.HasFile?
    ensures w' == Prepare(w, p, N) == Run(longer)
  {
    longer, w' := Then(actions, w, Act(p, N, 1, []));
  }

  lemma Publishes(actions: seq<Action>, w: World, p: Pid) returns (longer: seq<Action>, w': World)
    requires w == Run(actions) && p in w.procs
    requires var ph := w.procs[p].phase; ph.Filling? || ph.Sealed? || ph.Linked? || ph.Verified?
    ensures w' == Publish(w, p, 1) == Run(longer)
  {
    longer, w' := Then(actions, w, Act(p, N, 1, []));
  }

  lemma Sweeps(actions: seq<Action>, w: World, p: Pid) returns (longer: seq<Action>, w': World)
    requires w == Run(actions) && p in w.procs
    requires var ph := w.procs[p].phase; ph.Choosing? || ph.Opened? || ph.Taken? || ph.Emptied? || ph.Bare?
    ensures w' == Sweep(w, p) == Run(longer)
  {
    longer, w' := Then(actions, w, Act(p, N, 1, []));
  }

  /** A publisher arrives and finds its digest absent. */
  lemma Arrives(actions: seq<Action>, w: World, p: Pid, payload: Bytes) returns (longer: seq<Action>, w': World)
    requires w == Run(actions) && p !in w.procs && w.coord.None? && Hash(payload) !in w.objects
    ensures w' == Run(longer) && w' == w.(procs := w.procs[p := Proc(payload, None, Missing([]))], coord := Some(p))
  {
    longer, w' := Then(actions, w, ArrivePublisher(p, payload, None));
    longer, w' := Enters(longer, w', p, []);
    longer, w' := Prepares(longer, w', p);
    assert w'.procs == w.procs[p := Proc(payload, None, Missing([]))];
  }

  /** It makes a stage named N with an owner.lock in it. */
  lemma MakesStage(actions: seq<Action>, w: World, p: Pid, payload: Bytes) returns (longer: seq<Action>, w': World)
    requires w == Run(actions) && p in w.procs && w.procs[p] == Proc(payload, None, Missing([])) && N !in w.names
    ensures w' == Run(longer)
    ensures w' == w.(procs := w.procs[p := Proc(payload, None, HasOwner(N, w.nextDir))], names := w.names[N := w.nextDir],
                     stages := w.stages[w.nextDir := Stage(true, None)], nextDir := w.nextDir + 1)
  {
    longer, w' := Prepares(actions, w, p);
    assert w' == MakeStage(w, p, [], N) && w'.procs[p].phase == HasStage(N, w.nextDir);
    longer, w' := Prepares(longer, w', p);
    assert w' == MakeOwner(MakeStage(w, p, [], N), p, N, w.nextDir);
    assert w'.procs == w.procs[p := Proc(payload, None, HasOwner(N, w.nextDir))];
    assert w'.stages == w.stages[w.nextDir := Stage(true, None)];
  }

  /** It locks the stage and creates object.tmp. */
  lemma Stages(actions: seq<Action>, w: World, p: Pid, payload: Bytes, d: nat) returns (longer: seq<Action>, w': World)
    requires w == Run(actions) && p in w.procs && w.procs[p] == Proc(payload, None, HasOwner(N, d)) && d !in w.owners
    ensures w' == Run(longer)
    ensures w' == w.(procs := w.procs[p := Proc(payload, None, Filling(N, d, w.nextFile))], coord := None,
                     stages := w.stages[d := Stage(true, Some(w.nextFile))], owners := w.owners[d := p],
                     files := w.files[w.nextFile := File([], false)], nextFile := w.nextFile + 1)
  {
    longer, w' := Prepares(actions, w, p);
    longer, w' := Prepares(longer, w', p);
    longer, w' := Prepares(longer, w', p);
    assert w'.procs == w.procs[p := Proc(payload, None, Filling(N, d, w.nextFile))];
  }

  /** It seals an empty payload. */
  lemma Seals(actions: seq<Action>, w: World, p: Pid, d: nat, f: nat) returns (longer: seq<Action>, w': World)
    requires w == Run(actions) && p in w.procs && w.procs[p] == Proc([], None, Filling(N, d, f))
    requires f in w.files && w.files[f] == File([], false)
    ensures w' == Run(longer)
    ensures w' == w.(procs := w.procs[p := Proc([], None, Sealed(N, d, f))], files := w.files[f := File([], true)])
  {
    longer, w' := Publishes(actions, w, p);
  }

  /** It seals and links an empty payload. */
  lemma Links(actions: seq<Action>, w: World, p: Pid, d: nat, f: nat) returns (longer: seq<Action>, w': World)
    requires w == Run(actions) && p in w.procs && w.procs[p] == Proc([], None, Filling(N, d, f)) && Hash([]) !in w.objects
    requires f in w.files && w.files[f] == File([], false) && d in w.stages && w.stages[d].tmp == Some(f)
    ensures w' == Run(longer)
    ensures w' == w.(procs := w.procs[p := Proc([], None, Linked(N, d))], files := w.files[f := File([], true)],
                     objects := w.objects[Hash([]) := f])
  {
    longer, w' := Seals(actions, w, p, d, f);
    longer, w' := Publishes(longer, w', p);
    assert w'.procs == w.procs[p := Proc([], None, Linked(N, d))];
  }

  /** It verifies the object and releases its lock. */
  lemma Releases(actions: seq<Action>, w: World, p: Pid, d: nat, f: nat) returns (longer: seq<Action>, w': World)
    requires w == Run(actions) && p in w.procs && w.procs[p] == Proc([], None, Linked(N, d))
    requires Hash([]) in w.objects && w.objects[Hash([])] == f && f in w.files && w.files[f] == File([], true)
    ensures w' == Run(longer)
    ensures w' == w.(procs := w.procs[p := Proc([], None, Published(N, d))], owners := w.owners - {d})
  {
    longer, w' := Publishes(actions, w, p);
    longer, w' := Publishes(longer, w', p);
    assert w'.procs == w.procs[p := Proc([], None, Published(N, d))];
  }

  /** A recoverer lists the one stage. */
  lemma Lists(actions: seq<Action>, w: World, p: Pid) returns (longer: seq<Action>, w': World)
    requires w == Run(actions) && p in w.procs && w.procs[p] == RECOVERER && w.coord.None? && w.names.Keys == {N}
    ensures w' == Run(longer)
    ensures w' == w.(procs := w.procs[p := Proc([], None, Choosing(Recovery([N], [], [])))], coord := Some(p))
  {
    assert IsListing([N], w.names);
    longer, w' := Enters(actions, w, p, [N]);
  }

  /** A recoverer arrives and opens the one stage. */
  lemma Recovers(actions: seq<Action>, w: World, p: Pid, d: nat) returns (longer: seq<Action>, w': World)
    requires w == Run(actions) && p !in w.procs && w.coord.None? && w.names == map[N := d]
    ensures w' == Run(longer)
    ensures w' == w.(procs := w.procs[p := Proc([], None, Opened(Recovery([], [], []), N, d))], coord := Some(p))
  {
    longer, w' := Then(actions, w, ArriveRecoverer(p));
    longer, w' := Lists(longer, w', p);
    assert [N][1..] == [];
    longer, w' := Sweeps(longer, w', p);
    assert w'.procs == w.procs[p := Proc([], None, Opened(Recovery([], [], []), N, d))];
  }

  /** It takes the stage's lock. */
  lemma Takes(actions: seq<Action>, w: World, p: Pid, t: Task, d: nat) returns (longer: seq<Action>, w': World)
    requires w == Run(actions) && p in w.procs && w.procs[p] == Proc([], None, Opened(t, N, d))
    requires d in w.stages && w.stages[d].owner && d !in w.owners
    ensures w' == Run(longer)
    ensures w' == w.(procs := w.procs[p := Proc([], None, Taken(t, N, d))], owners := w.owners[d := p])
  {
    longer, w' := Sweeps(actions, w, p);
  }

  /** It unlinks the stage's members. */
  lemma Unlinks(actions: seq<Action>, w: World, p: Pid, t: Task, d: nat) returns (longer: seq<Action>, w': World)
    requires w == Run(actions) && p in w.procs && w.procs[p] == Proc([], None, Taken(t, N, d))
    ensures w' == Run(longer)
    ensures w' == w.(procs := w.procs[p := Proc([], None, Bare(t, N, d))], stages := w.stages[d := Stage(false, None)],
                     owners := w.owners - {d})
  {
    longer, w' := Sweeps(actions, w, p);
    assert w' == UnlinkTmp(w, p, t, N, d) && w'.procs[p].phase == Emptied(t, N, d);
    longer, w' := Sweeps(longer, w', p);
    assert w' == UnlinkOwner(UnlinkTmp(w, p, t, N, d), p, t, N, d);
    assert w'.procs == w.procs[p := Proc([], None, Bare(t, N, d))];
    assert w'.stages == w.stages[d := Stage(false, None)];
  }

  /** It removes the stage and reports. */
  lemma Reports(actions: seq<Action>, w: World, p: Pid, d: nat) returns (longer: seq<Action>, w': World)
    requires w == Run(actions) && p in w.procs && w.procs[p] == Proc([], None, Bare(Recovery([], [], []), N, d))
    ensures w' == Run(longer)
    ensures w' == w.(procs := w.procs[p := Proc([], None, Reported(Recovery([], [N], [])))], coord := None,
                     names := w.names - {N}, stages := w.stages - {d})
  {
    longer, w' := Sweeps(actions, w, p);
    assert [] + [N] == [N];
    longer, w' := Sweeps(longer, w', p);
    assert w'.procs == w.procs[p := Proc([], None, Reported(Recovery([], [N], [])))];
  }

  /** The cleanup after a publication finds the stage under its name locked. */
  lemma CleanupFails(actions: seq<Action>, w: World, p: Pid, d: nat) returns (longer: seq<Action>, w': World)
    requires w == Run(actions) && p in w.procs && w.procs[p] == Proc([], None, Published(N, d)) && w.coord.None?
    requires N in w.names && w.names[N] in w.stages && w.stages[w.names[N]].owner && w.names[N] in w.owners
    ensures w' == Run(longer) && p in w'.procs && w'.procs[p] == Proc([], None, Failed(RemainedLocked))
    ensures w'.objects == w.objects
  {
    longer, w' := Enters(actions, w, p, []);
    longer, w' := Sweeps(longer, w', p);
    longer, w' := Sweeps(longer, w', p);
  }

  /** A publication whose stage was recovered after its lock was released, and whose
      stage name a second publisher then drew, raises although its object is stored. */
  lemma CleanupCanFindNameReused() returns (actions: seq<Action>)
    ensures 0 in Run(actions).procs && Run(actions).procs[0] == Proc([], None, Failed(RemainedLocked))
    ensures Hash([]) in Run(actions).objects
  {
    var w := EMPTY;
    actions, w := Arrives([], w, 0, []);
    actions, w := MakesStage(actions, w, 0, []);
    actions, w := Stages(actions, w, 0, [], 0);
    actions, w := Links(actions, w, 0, 0, 0);
    actions, w := Releases(actions, w, 0, 0, 0);
    actions, w := Recovers(actions, w, 1, 0);
    actions, w := Takes(actions, w, 1, Recovery([], [], []), 0);
    actions, w := Unlinks(actions, w, 1, Recovery([], [], []), 0);
    actions, w := Reports(actions, w, 1, 0);
    actions, w := Arrives(actions, w, 2, [7]);
    actions, w := MakesStage(actions, w, 2, [7]);
    actions, w := Stages(actions, w, 2, [7], 1);
    actions, w := CleanupFails(actions, w, 0, 0);
  }

  // ------------------------------------------------------ running out of names

  /** `k` draws of the same name. */
  function Draws(k: nat): seq<Name> {
    seq(k, i => N)
  }

  /** It draws a taken name again and again. */
  lemma {:induction false} DrawsTaken(actions: seq<Action>, w: World, p: Pid, payload: Bytes, k: nat)
    returns (longer: seq<Action>, w': World)
    requires w == Run(actions) && p in w.procs && w.procs[p] == Proc(payload, None, Missing([])) && N in w.names && k < DRAWS
    ensures w' == Run(longer) && w' == w.(procs := w.procs[p := Proc(payload, None, Missing(Draws(k)))])
  {
    if k == 0 {
      longer, w' := actions, w;
      assert w.procs == w.procs[p := Proc(payload, None, Missing(Draws(0)))];
    } else {
      longer, w' := DrawsTaken(actions, w, p, payload, k - 1);
      longer, w' := Prepares(longer, w', p);
      assert Draws(k - 1) + [N] == Draws(k);
      assert w'.procs == w.procs[p := Proc(payload, None, Missing(Draws(k)))];
    }
  }

  /** A publisher that draws the name of a live publisher's stage every time gives
      up: the draws need not ever miss. */
  lemma NamesCanRunOut() returns (actions: seq<Action>)
    ensures 1 in Run(actions).procs && Run(actions).procs[1] == Proc([7], None, Failed(Exhausted))
  {
    var w := EMPTY;
    actions, w := Arrives([], w, 0, []);
    actions, w := MakesStage(actions, w, 0, []);
    actions, w := Stages(actions, w, 0, [], 0);
    actions, w := Arrives(actions, w, 1, [7]);
    actions, w := DrawsTaken(actions, w, 1, [7], DRAWS - 1);
    actions, w := Prepares(actions, w, 1);
  }
}
