/** What a recovery reports, whoever else is at work: every stage it listed is
    under exactly one of its two headings, and each heading means what it says. */
module EvidenceRecovery {
  import opened Options
  import opened EvidenceSteps
  import opened EvidenceInvariant
  import opened EvidencePreserved
  import opened EvidenceSafety

  /** The process is somewhere in its loop over the stages. */
  predicate InLoop(ph: Phase) {
    (ph.Choosing? || ph.Opened? || ph.Taken? || ph.Emptied? || ph.Bare?) && ph.task.Recovery?
  }

  /** The stage it is at, if any. */
  function AtHand(ph: Phase): seq<Name> {
    if ph.Opened? || ph.Taken? || ph.Emptied? || ph.Bare? then [ph.name] else []
  }

  /** Every listed name is still to do, at hand, removed or retained, and only one of these. */
  predicate Accounted(order: seq<Name>, t: Task, at: seq<Name>)
    requires t.Recovery?
  {
    multiset(t.todo) + multiset(at) + multiset(t.removed) + multiset(t.retained) == multiset(order)
  }

  /** `w0` is the world the recovery entered. The names are those it listed but for the
      removed ones, each for the directory it had, and the removed directories are gone. */
  ghost predicate Swept(w0: World, w: World, order: seq<Name>, removed: seq<Name>) {
    && (forall n :: n in w.names <==> n in order && n !in removed)
    && (forall n :: n in order ==> n in w0.names && w0.names[n] < w.nextDir)
    && (forall n :: n in w.names ==> n in w0.names && w.names[n] == w0.names[n])
    && (forall n :: n in removed ==> n in order && w0.names[n] !in w.stages)
  }

  /** The stage the process has started to empty. */
  predicate Emptying(ph: Phase, n: Name) {
    (ph.Taken? || ph.Emptied? || ph.Bare?) && ph.name == n
  }

  /** Every other stage still has the members it had. */
  ghost predicate Spared(w0: World, w: World, ph: Phase) {
    forall n :: n in w.names && !Emptying(ph, n) ==>
      n in w0.names && w0.names[n] in w0.stages && w0.names[n] in w.stages && w.stages[w0.names[n]] == w0.stages[w0.names[n]]
  }

  ghost predicate Looping(w0: World, w: World, p: Pid, order: seq<Name>) {
    && p in w.procs && InLoop(w.procs[p].phase)
    && Accounted(order, w.procs[p].phase.task, AtHand(w.procs[p].phase))
    && Swept(w0, w, order, w.procs[p].phase.task.removed)
  }

  ghost predicate Recovering(w0: World, w: World, p: Pid, order: seq<Name>) {
    Looping(w0, w, p, order) && Spared(w0, w, w.procs[p].phase)
  }

  /** The recovery has returned its report. */
  ghost predicate Finished(w0: World, w: World, p: Pid, order: seq<Name>) {
    Reports(w0, w, p, order) && Spared(w0, w, w.procs[p].phase)
  }

  ghost predicate Reports(w0: World, w: World, p: Pid, order: seq<Name>) {
    && p in w.procs && w.procs[p].phase.Reported?
    && w.procs[p].phase.task.Recovery? && w.procs[p].phase.task.todo == []
    && Accounted(order, w.procs[p].phase.task, [])
    && Swept(w0, w, order, w.procs[p].phase.task.removed)
  }

  // -------------------------------------------------------------- the others

  lemma OtherIsOutside(w: World, p: Pid, q: Pid)
    requires Inv(w) && w.coord == Some(p) && q in w.procs && q != p
    ensures !HoldsCoord(w.procs[q].phase)
  {
    assert HoldsItsLocks(w, q);
  }

  /** While somebody holds coord.lock, nobody else changes a name or a stage. */
  lemma OthersKeepNames(w: World, a: Action, p: Pid)
    requires Inv(w) && w.coord == Some(p) && Actor(a) != p
    ensures After(w, a).names == w.names && After(w, a).stages == w.stages && After(w, a).nextDir == w.nextDir
  {
    match a
    case Act(q, name, count, order) =>
      if q in w.procs {
        OtherIsOutside(w, p, q);
        OutsiderKeepsNames(w, q, name, count, order);
      }
    case _ =>
  }

  lemma OutsiderKeepsNames(w: World, q: Pid, name: Name, count: nat, order: seq<Name>)
    requires q in w.procs && w.coord.Some? && !HoldsCoord(w.procs[q].phase)
    ensures var w' := Move(w, q, name, count, order); w'.names == w.names && w'.stages == w.stages && w'.nextDir == w.nextDir
  {
    PublishKeepsNames(w, q, count);
  }

  predicate SameNames(w: World, w': World) {
    w'.names == w.names && w'.stages == w.stages && w'.nextDir == w.nextDir
  }

  lemma FillKeepsNames(w: World, q: Pid, n: Name, d: nat, f: nat, count: nat)
    requires q in w.procs
    ensures SameNames(w, Fill(w, q, n, d, f, count))
  {
  }

  lemma LinkKeepsNames(w: World, q: Pid, n: Name, d: nat, f: nat)
    requires q in w.procs
    ensures SameNames(w, Link(w, q, n, d, f)) && SameNames(w, Verify(w, q, n, d)) && SameNames(w, Release(w, q, n, d))
  {
  }

  lemma PublishKeepsNames(w: World, q: Pid, count: nat)
    requires q in w.procs
    ensures SameNames(w, Publish(w, q, count))
  {
    match w.procs[q].phase
    case Filling(n, d, f) => FillKeepsNames(w, q, n, d, f, count);
    case Sealed(n, d, f) => LinkKeepsNames(w, q, n, d, f);
    case Linked(n, d) => LinkKeepsNames(w, q, n, d, 0);
    case Verified(n, d) => LinkKeepsNames(w, q, n, d, 0);
    case _ =>
  }

  // ------------------------------------------------------------- its own steps

  lemma TakesNext(todo: seq<Name>)
    requires todo != []
    ensures multiset(todo) == multiset([todo[0]]) + multiset(todo[1..])
  {
    assert todo == [todo[0]] + todo[1..];
  }

  lemma ChoosesLast(w0: World, w: World, p: Pid, order: seq<Name>)
    requires Inv(w) && Looping(w0, w, p, order) && w.procs[p].phase.Choosing? && w.procs[p].phase.task.todo == []
    ensures Reports(w0, Sweep(w, p), p, order)
  {
  }

  lemma ChoosesNext(w0: World, w: World, p: Pid, order: seq<Name>)
    requires Inv(w) && Looping(w0, w, p, order) && w.procs[p].phase.Choosing? && w.procs[p].phase.task.todo != []
    ensures Looping(w0, Sweep(w, p), p, order)
  {
    assert ProcOk(w, w.procs[p]);
    TakesNext(w.procs[p].phase.task.todo);
  }

  /** Retaining moves the name at hand to the second list, if its lock is taken. */
  lemma Inspects(w0: World, w: World, p: Pid, order: seq<Name>)
    requires Inv(w) && Looping(w0, w, p, order) && w.procs[p].phase.Opened?
    ensures Looping(w0, Sweep(w, p), p, order)
  {
    var ph := w.procs[p].phase;
    assert ProcOk(w, w.procs[p]) && DirOk(w, ph.dir);
    assert multiset(ph.task.retained + [ph.name]) == multiset(ph.task.retained) + multiset([ph.name]);
  }

  lemma Unlinks(w0: World, w: World, p: Pid, order: seq<Name>)
    requires Inv(w) && Looping(w0, w, p, order) && (w.procs[p].phase.Taken? || w.procs[p].phase.Emptied?)
    ensures Looping(w0, Sweep(w, p), p, order)
  {
    var ph := w.procs[p].phase;
    assert ProcOk(w, w.procs[p]);
    forall n | n in ph.task.removed ensures w0.names[n] != ph.dir { assert w0.names[n] !in w.stages; }
  }

  lemma Removes(w0: World, w: World, p: Pid, order: seq<Name>)
    requires Inv(w) && Looping(w0, w, p, order) && w.procs[p].phase.Bare?
    ensures Looping(w0, Sweep(w, p), p, order)
  {
    var ph := w.procs[p].phase;
    assert ProcOk(w, w.procs[p]);
    assert multiset(ph.task.removed + [ph.name]) == multiset(ph.task.removed) + multiset([ph.name]);
  }

  // What becomes of the members of the stages.

  /** A step on the stage at hand spares the others. */
  lemma SparesOthers(w0: World, w: World, w': World, ph: Phase, ph': Phase)
    requires DirsOk(w) && Spared(w0, w, ph) && (ph.Taken? || ph.Emptied? || ph.Bare?) && Named(w, ph.name, ph.dir)
    requires forall n :: n in w.names ==> n in w0.names && w.names[n] == w0.names[n]
    requires forall n :: n in w'.names ==> n in w.names && (n != ph.name || Emptying(ph', n))
    requires forall d :: d in w.stages && d != ph.dir ==> d in w'.stages && w'.stages[d] == w.stages[d]
    ensures Spared(w0, w', ph')
  {
    forall n | n in w'.names && !Emptying(ph', n)
      ensures n in w0.names && w0.names[n] in w0.stages && w0.names[n] in w'.stages
      ensures w'.stages[w0.names[n]] == w0.stages[w0.names[n]]
    {
      assert !SameDir(w, n, ph.name);
    }
  }

  lemma ChoosingSpares(w0: World, w: World, p: Pid)
    requires Inv(w) && p in w.procs && InLoop(w.procs[p].phase) && Spared(w0, w, w.procs[p].phase) && w.procs[p].phase.Choosing?
    ensures p in Sweep(w, p).procs && Spared(w0, Sweep(w, p), Sweep(w, p).procs[p].phase)
  {
    assert ProcOk(w, w.procs[p]);
  }

  lemma InspectingSpares(w0: World, w: World, p: Pid)
    requires Inv(w) && p in w.procs && InLoop(w.procs[p].phase) && Spared(w0, w, w.procs[p].phase) && w.procs[p].phase.Opened?
    ensures p in Sweep(w, p).procs && Spared(w0, Sweep(w, p), Sweep(w, p).procs[p].phase)
  {
    assert ProcOk(w, w.procs[p]) && DirOk(w, w.procs[p].phase.dir);
  }

  lemma EmptyingSpares(w0: World, w: World, p: Pid, order: seq<Name>)
    requires Inv(w) && Recovering(w0, w, p, order)
    requires w.procs[p].phase.Taken? || w.procs[p].phase.Emptied? || w.procs[p].phase.Bare?
    ensures p in Sweep(w, p).procs && Spared(w0, Sweep(w, p), Sweep(w, p).procs[p].phase)
  {
    assert ProcOk(w, w.procs[p]);
    var w', ph := Sweep(w, p), w.procs[p].phase;
    SparesOthers(w0, w, w', ph, w'.procs[p].phase);
  }

  lemma OwnStep(w0: World, w: World, p: Pid, order: seq<Name>)
    requires Inv(w) && Looping(w0, w, p, order)
    ensures Looping(w0, Sweep(w, p), p, order) || Reports(w0, Sweep(w, p), p, order)
  {
    var ph := w.procs[p].phase;
    if ph.Choosing? {
      if ph.task.todo == [] { ChoosesLast(w0, w, p, order); } else { ChoosesNext(w0, w, p, order); }
    } else if ph.Opened? {
      Inspects(w0, w, p, order);
    } else if ph.Bare? {
      Removes(w0, w, p, order);
    } else {
      Unlinks(w0, w, p, order);
    }
  }

  lemma OwnRecoveringStep(w0: World, w: World, p: Pid, order: seq<Name>)
    requires Inv(w) && Recovering(w0, w, p, order)
    ensures Recovering(w0, Sweep(w, p), p, order) || Finished(w0, Sweep(w, p), p, order)
  {
    OwnStep(w0, w, p, order);
    var ph := w.procs[p].phase;
    if ph.Choosing? {
      ChoosingSpares(w0, w, p);
    } else if ph.Opened? {
      InspectingSpares(w0, w, p);
    } else {
      EmptyingSpares(w0, w, p, order);
    }
  }

  lemma OthersRecoveringStep(w0: World, w: World, a: Action, p: Pid, order: seq<Name>)
    requires Inv(w) && Recovering(w0, w, p, order) && Actor(a) != p
    ensures Recovering(w0, After(w, a), p, order)
  {
    assert HoldsItsLocks(w, p);
    OthersStand(w, a, p);
    OthersKeepNames(w, a, p);
  }

  lemma RecoveringStep(w0: World, w: World, a: Action, p: Pid, order: seq<Name>)
    requires Inv(w) && Recovering(w0, w, p, order) && a != Crash(p)
    ensures Recovering(w0, After(w, a), p, order) || Finished(w0, After(w, a), p, order)
  {
    if Actor(a) != p {
      OthersRecoveringStep(w0, w, a, p, order);
    } else if a.Act? {
      OwnRecoveringStep(w0, w, p, order);
    }
  }

  // ------------------------------------------------------------ whole histories

  predicate NoCrash(actions: seq<Action>, p: Pid) {
    forall i :: 0 <= i < |actions| ==> actions[i] != Crash(p)
  }

  /** A report does not change any more. */
  lemma {:induction false} ReportStands(w: World, actions: seq<Action>, p: Pid)
    requires p in w.procs && w.procs[p].phase.Reported? && NoCrash(actions, p)
    ensures p in From(w, actions).procs && From(w, actions).procs[p] == w.procs[p]
    decreases |actions|
  {
    if actions != [] {
      var a := actions[0];
      if Actor(a) != p { OthersStand(w, a, p); }
      ReportStands(After(w, a), actions[1..], p);
    }
  }

  /** A process in the loop reaches the moment of its report through the loop only. */
  lemma {:induction false} ReachesReport(w0: World, w: World, actions: seq<Action>, p: Pid, order: seq<Name>) returns (k: nat)
    requires Inv(w) && Recovering(w0, w, p, order) && NoCrash(actions, p)
    requires p in From(w, actions).procs && From(w, actions).procs[p].phase.Reported?
    ensures k < |actions| && Finished(w0, From(w, actions[..k + 1]), p, order)
    ensures From(w, actions).procs[p] == From(w, actions[..k + 1]).procs[p]
    decreases |actions|
  {
    var a := actions[0];
    var w' := After(w, a);
    RecoveringStep(w0, w, a, p, order);
    AfterKeepsInv(w, a);
    if Finished(w0, w', p, order) {
      k := 0;
      assert actions[..1] == [a] && [a][1..] == [];
      ReportStands(w', actions[1..], p);
    } else {
      k := ReachesReport(w0, w', actions[1..], p, order);
      assert actions[..k + 2][1..] == actions[1..][..k + 1] && actions[..k + 2][0] == a;
      k := k + 1;
    }
  }

  /** Entering the recovery lists the stages. */
  lemma EnteredRecovering(w: World, a: Action, p: Pid, order: seq<Name>)
    requires Inv(w) && p in w.procs && w.procs[p].phase == Waiting
    requires p in After(w, a).procs && After(w, a).procs[p].phase == Choosing(Recovery(order, [], []))
    ensures IsListing(order, w.names) && Recovering(w, After(w, a), p, order)
  {
    if Actor(a) != p { OthersStand(w, a, p); }
    forall n | n in order ensures n in w.names && w.names[n] < w.nextDir {
      assert DirOk(w, w.names[n]);
    }
  }

  /** Directories are made once: one that is gone stays gone. */
  lemma {:induction false} GoneStaysGone(w: World, actions: seq<Action>, d: nat)
    requires Inv(w) && d !in w.stages && d < w.nextDir
    ensures d !in From(w, actions).stages
    decreases |actions|
  {
    if actions != [] {
      AfterKeepsInv(w, actions[0]);
      ActionKeepsGone(w, actions[0], d);
      GoneStaysGone(After(w, actions[0]), actions[1..], d);
    }
  }

  predicate Gone(w: World, d: nat) {
    d !in w.stages && d < w.nextDir
  }

  lemma PrepareKeepsGone(w: World, q: Pid, name: Name, d: nat)
    requires Inv(w) && q in w.procs && Gone(w, d)
    ensures Gone(Prepare(w, q, name), d)
  {
    assert ProcOk(w, w.procs[q]);
  }

  lemma SweepKeepsGone(w: World, q: Pid, d: nat)
    requires Inv(w) && q in w.procs && Gone(w, d)
    ensures Gone(Sweep(w, q), d)
  {
    assert ProcOk(w, w.procs[q]);
  }

  lemma ActionKeepsGone(w: World, a: Action, d: nat)
    requires Inv(w) && Gone(w, d)
    ensures Gone(After(w, a), d)
  {
    match a
    case Act(q, name, count, order) =>
      if q in w.procs {
        PrepareKeepsGone(w, q, name, d);
        SweepKeepsGone(w, q, d);
        PublishKeepsNames(w, q, count);
      }
    case _ =>
  }

  // ------------------------------------------------------ why a stage is kept

  /** Another live process holds the stage's lock, the one that made it. */
  predicate LockedAtHand(w: World, p: Pid, n: Name, d: nat) {
    && p in w.procs && w.procs[p].phase.Opened? && w.procs[p].phase.name == n && w.procs[p].phase.dir == d
    && d in w.stages && w.stages[d].owner && LiveMaker(w, d, p)
  }

  /** What the task of a recovery has retained so far. */
  predicate Keeps(w: World, p: Pid, n: Name) {
    && p in w.procs && (InLoop(w.procs[p].phase) || (w.procs[p].phase.Reported? && w.procs[p].phase.task.Recovery?))
    && n in w.procs[p].phase.task.retained
  }

  lemma SweepKeepsOnlyLocked(w0: World, w: World, p: Pid, order: seq<Name>, n: Name)
    requires Inv(w) && Recovering(w0, w, p, order) && !Keeps(w, p, n) && Keeps(Sweep(w, p), p, n)
    ensures n in w0.names && LockedAtHand(w, p, n, w0.names[n])
  {
    var ph := w.procs[p].phase;
    assert ProcOk(w, w.procs[p]) && HoldsItsLocks(w, p);
    if ph.Opened? {
      assert DirOk(w, ph.dir);
      if ph.dir in w.owners { HolderMadeIt(w, p, ph.dir); }
    }
  }

  lemma StepKeepsOnlyLocked(w0: World, w: World, a: Action, p: Pid, order: seq<Name>, n: Name)
    requires Inv(w) && Recovering(w0, w, p, order) && !Keeps(w, p, n) && Keeps(After(w, a), p, n)
    ensures a.Act? && a.pid == p && n in w0.names && LockedAtHand(w, p, n, w0.names[n])
  {
    if Actor(a) != p {
      OthersStand(w, a, p);
    } else if a.Act? {
      SweepKeepsOnlyLocked(w0, w, p, order, n);
    }
  }

  /** For every retained stage there was a moment at which the recovery inspected it
      and another live process, the one that made it, held its lock. */
  lemma {:induction false} RetainedWasLocked(w0: World, w: World, actions: seq<Action>, p: Pid, order: seq<Name>, n: Name)
    returns (k: nat)
    requires Inv(w) && Recovering(w0, w, p, order) && NoCrash(actions, p) && !Keeps(w, p, n)
    requires p in From(w, actions).procs && From(w, actions).procs[p].phase.Reported? && Keeps(From(w, actions), p, n)
    ensures k < |actions| && n in w0.names && LockedAtHand(From(w, actions[..k]), p, n, w0.names[n])
    decreases |actions|
  {
    var a := actions[0];
    var w' := After(w, a);
    RecoveringStep(w0, w, a, p, order);
    AfterKeepsInv(w, a);
    if Keeps(w', p, n) {
      StepKeepsOnlyLocked(w0, w, a, p, order, n);
      k := 0;
      assert actions[..0] == [];
    } else {
      if Finished(w0, w', p, order) { ReportStands(w', actions[1..], p); }
      k := RetainedWasLocked(w0, w', actions[1..], p, order, n);
      assert actions[..k + 1][1..] == actions[1..][..k] && actions[..k + 1][0] == a;
      k := k + 1;
    }
  }

  // ----------------------------------------------------------------- the report

  /** What a recovery that entered in `w` and listed `order` may report, judged by the
      world `u` in which it reports. */
  ghost predicate ReportIsTrue(w: World, u: World, order: seq<Name>, removed: seq<Name>, retained: seq<Name>) {
    && IsListing(order, w.names) && multiset(removed) + multiset(retained) == multiset(order)
    && (forall n :: n in u.names <==> n in retained)
    && (forall n :: n in retained ==>
          n in w.names && n in u.names && u.names[n] == w.names[n]
          && w.names[n] in w.stages && w.names[n] in u.stages && u.stages[w.names[n]] == w.stages[w.names[n]])
    && (forall n :: n in removed ==> n in w.names && w.names[n] !in u.stages)
  }

  lemma FinishedReportsTrue(w: World, u: World, p: Pid, order: seq<Name>)
    requires IsListing(order, w.names) && Finished(w, u, p, order)
    ensures ReportIsTrue(w, u, order, u.procs[p].phase.task.removed, u.procs[p].phase.task.retained)
  {
    var t := u.procs[p].phase.task;
    assert multiset(t.removed) + multiset(t.retained) == multiset(order);
    forall n ensures n in order <==> n in t.removed || n in t.retained {
      assert n in order <==> n in multiset(order);
    }
    forall n | n in t.removed ensures n !in t.retained { OnceListed(order, t.removed, t.retained, n); }
  }

  /** A listing has no name twice, so no name is under both headings. */
  lemma OnceListed(order: seq<Name>, removed: seq<Name>, retained: seq<Name>, n: Name)
    requires forall i, j :: 0 <= i < j < |order| ==> order[i] != order[j]
    requires multiset(removed) + multiset(retained) == multiset(order) && n in removed
    ensures n !in retained
  {
    AtMostOnce(order, n);
    assert multiset(order)[n] == multiset(removed)[n] + multiset(retained)[n];
    assert n in multiset(removed) && multiset(retained)[n] == 0;
  }

  lemma {:induction false} AtMostOnce(s: seq<Name>, n: Name)
    requires forall i, j :: 0 <= i < j < |s| ==> s[i] != s[j]
    ensures multiset(s)[n] <= 1
  {
    if s != [] {
      AtMostOnce(s[1..], n);
      assert s == [s[0]] + s[1..];
      if s[0] == n { assert n !in s[1..]; }
    }
  }

  /** At some moment the process had the stage at hand and found it locked. */
  ghost predicate WasLocked(w: World, actions: seq<Action>, p: Pid, n: Name, d: nat) {
    exists i: nat :: i < |actions| && LockedAtHand(From(w, actions[..i]), p, n, d)
  }

  /** In every history, with whatever publishers, recoverers and crashes beside it: a
      recovery that entered in the world before `a` and returned its report some time
      later put every stage it listed under exactly one heading. When it reported, the
      stages left were the retained ones, as it found them; each of these it had seen
      locked by the live process that made it; and no removed one ever comes back. */
  lemma RecoveryReportsTrue(before: seq<Action>, a: Action, actions: seq<Action>, p: Pid, order: seq<Name>)
    returns (k: nat)
    requires var w := Run(before);
             && p in w.procs && w.procs[p].phase == Waiting && NoCrash(actions, p)
             && p in After(w, a).procs && After(w, a).procs[p].phase == Choosing(Recovery(order, [], []))
             && p in From(After(w, a), actions).procs && From(After(w, a), actions).procs[p].phase.Reported?
    ensures var w, w1 := Run(before), After(Run(before), a); var t := From(w1, actions).procs[p].phase.task;
            && k < |actions| && t.Recovery? && t.todo == []
            && ReportIsTrue(w, From(w1, actions[..k + 1]), order, t.removed, t.retained)
            && (forall n :: n in t.removed ==> n in w.names && w.names[n] !in From(w1, actions).stages)
            && (forall n :: n in t.retained ==> n in w.names && WasLocked(w1, actions, p, n, w.names[n]))
  {
    var w, w1 := Run(before), After(Run(before), a);
    RunInv(before);
    AfterKeepsInv(w, a);
    EnteredRecovering(w, a, p, order);
    k := ReachesReport(w, w1, actions, p, order);
    FinishedReportsTrue(w, From(w1, actions[..k + 1]), p, order);
    var t := From(w1, actions).procs[p].phase.task;
    forall n | n in t.removed ensures n in w.names && w.names[n] !in From(w1, actions).stages {
      RemovedStaysGone(w, w1, actions, k + 1, p, order, n);
    }
    forall n | n in t.retained
      ensures n in w.names && WasLocked(w1, actions, p, n, w.names[n])
    {
      var i := RetainedWasLocked(w, w1, actions, p, order, n);
    }
  }

  lemma {:induction false} FromSplits(w: World, actions: seq<Action>, k: nat)
    requires k <= |actions|
    ensures From(w, actions) == From(From(w, actions[..k]), actions[k..])
    decreases |actions|
  {
    if k > 0 {
      assert actions[..k][0] == actions[0] && actions[..k][1..] == actions[1..][..k - 1] && actions[1..][k - 1..] == actions[k..];
      FromSplits(After(w, actions[0]), actions[1..], k - 1);
    }
  }

  lemma RemovedStaysGone(w: World, w1: World, actions: seq<Action>, k: nat, p: Pid, order: seq<Name>, n: Name)
    requires Inv(w1) && k <= |actions| && Finished(w, From(w1, actions[..k]), p, order)
    requires n in From(w1, actions[..k]).procs[p].phase.task.removed
    ensures n in w.names && w.names[n] !in From(w1, actions).stages
  {
    FromSplits(w1, actions, k);
    FromKeepsInv(w1, actions[..k]);
    GoneStaysGone(From(w1, actions[..k]), actions[k..], w.names[n]);
  }
}
