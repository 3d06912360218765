/** Safety of the evidence store over every history of publishers, recoverers
    and crashes. */
module EvidenceSafety {
  import opened Options
  import opened EvidenceSteps
  import opened EvidenceInvariant
  import opened EvidencePreserved

  // -------------------------------------------------------------- objects

  /** The object `h` of `w` is still in `w'`, under the same inode. */
  predicate ObjectStays(w: World, w': World, h: Hash) {
    h in w.objects ==> h in w'.objects && w'.objects[h] == w.objects[h]
  }

  lemma LookUpKeepsObjects(w: World, p: Pid)
    requires p in w.procs
    ensures LookUp(w, p).objects == w.objects
  {
  }

  lemma PrepareKeepsObjects(w: World, p: Pid, name: Name)
    requires p in w.procs
    ensures Prepare(w, p, name).objects == w.objects
  {
    if w.procs[p].phase.Entered? { LookUpKeepsObjects(w, p); }
  }

  lemma EnterKeepsObjects(w: World, p: Pid, order: seq<Name>)
    requires p in w.procs
    ensures Enter(w, p, order).objects == w.objects
  {
  }

  lemma ChooseKeepsObjects(w: World, p: Pid, t: Task)
    requires p in w.procs
    ensures Choose(w, p, t).objects == w.objects
  {
  }

  lemma InspectKeepsObjects(w: World, p: Pid, t: Task, n: Name, d: nat)
    requires p in w.procs
    ensures Inspect(w, p, t, n, d).objects == w.objects
  {
  }

  lemma SweepKeepsObjects(w: World, p: Pid)
    requires p in w.procs
    ensures Sweep(w, p).objects == w.objects
  {
    match w.procs[p].phase
    case Choosing(t) => ChooseKeepsObjects(w, p, t);
    case Opened(t, n, d) => InspectKeepsObjects(w, p, t, n, d);
    case _ =>
  }

  lemma PublishKeepsObjects(w: World, p: Pid, count: nat, h: Hash)
    requires p in w.procs
    ensures ObjectStays(w, Publish(w, p, count), h)
  {
  }

  /** No action removes an entry of objects/ or makes it name another file. */
  lemma ActionKeepsObjects(w: World, a: Action, h: Hash)
    ensures ObjectStays(w, After(w, a), h)
  {
    match a
    case Act(p, name, count, order) =>
      if p in w.procs {
        EnterKeepsObjects(w, p, order);
        PrepareKeepsObjects(w, p, name);
        PublishKeepsObjects(w, p, count, h);
        SweepKeepsObjects(w, p);
      }
    case _ =>
  }

  lemma {:induction false} HistoryKeepsObjects(w: World, more: seq<Action>, h: Hash)
    requires h in w.objects
    ensures h in From(w, more).objects && From(w, more).objects[h] == w.objects[h]
    decreases |more|
  {
    if more != [] {
      ActionKeepsObjects(w, more[0], h);
      HistoryKeepsObjects(After(w, more[0]), more[1..], h);
    }
  }

  /** Every name in objects/ holds read-only bytes that hash to it; it is never
      removed, never renamed to another file, and its bytes never change. */
  lemma ObjectsAreForever(actions: seq<Action>, more: seq<Action>, h: Hash)
    requires h in Run(actions).objects
    ensures ObjectOk(Run(actions), h)
    ensures var later := From(Run(actions), more);
            h in later.objects && later.objects[h] == Run(actions).objects[h] && ObjectOk(later, h)
  {
    RunInv(actions);
    assert ObjectOk(Run(actions), h);
    HistoryKeepsObjects(Run(actions), more, h);
    FromKeepsInv(Run(actions), more);
    assert ObjectOk(From(Run(actions), more), h);
  }

  /** Whatever `publish` returned stays stored. */
  lemma ReturnedObjectStays(actions: seq<Action>, more: seq<Action>, p: Pid)
    requires p in Run(actions).procs && Run(actions).procs[p].phase == Returned
    ensures var payload := Run(actions).procs[p].payload; var later := From(Run(actions), more);
            Hash(payload) in later.objects && ObjectOk(later, Hash(payload))
  {
    RunInv(actions);
    assert ProcOk(Run(actions), Run(actions).procs[p]);
    ObjectsAreForever(actions, more, Hash(Run(actions).procs[p].payload));
  }

  // --------------------------------------------------------- live publishers

  function Actor(a: Action): Pid {
    match a
    case ArrivePublisher(p, _, _) => p
    case ArriveRecoverer(p) => p
    case Crash(p) => p
    case Act(p, _, _, _) => p
  }

  predicate OwnsStage(ph: Phase) {
    ph.Filling? || ph.Sealed? || ph.Linked? || ph.Verified?
  }

  /** Nothing another process does, crashing included, removes or empties the
      stage of a publisher that has not released its owner.lock. */
  lemma LiveStageIsKept(actions: seq<Action>, a: Action, p: Pid)
    requires p in Run(actions).procs && OwnsStage(Run(actions).procs[p].phase) && Actor(a) != p
    ensures var w, w', ph := Run(actions), After(Run(actions), a), Run(actions).procs[p].phase;
            && Named(w, ph.name, ph.dir) && w.stages[ph.dir].owner
            && Named(w', ph.name, ph.dir) && w'.stages[ph.dir] == w.stages[ph.dir]
  {
    var w := Run(actions);
    RunInv(actions);
    StageUntouched(w, a, p);
  }

  /** The stage `d` under the name `n` is as it was. */
  predicate StageStays(w: World, w': World, n: Name, d: nat) {
    Named(w, n, d) ==> Named(w', n, d) && w'.stages[d] == w.stages[d]
  }

  /** The process is not at work on the stage `d` under the name `n`. */
  predicate Elsewhere(ph: Phase, n: Name, d: nat) {
    match ph
    case HasStage(_, e) => e != d
    case HasLock(_, e) => e != d
    case Taken(_, _, e) => e != d
    case Emptied(_, _, e) => e != d
    case Bare(_, m, e) => e != d && m != n
    case _ => true
  }

  lemma PrepareKeepsStage(w: World, q: Pid, name: Name, n: Name, d: nat)
    requires q in w.procs && Elsewhere(w.procs[q].phase, n, d) && d < w.nextDir
    ensures StageStays(w, Prepare(w, q, name), n, d)
  {
  }

  lemma SweepKeepsStage(w: World, q: Pid, n: Name, d: nat)
    requires q in w.procs && Elsewhere(w.procs[q].phase, n, d)
    ensures StageStays(w, Sweep(w, q), n, d)
  {
  }

  lemma PublishKeepsStage(w: World, q: Pid, count: nat, n: Name, d: nat)
    requires q in w.procs
    ensures StageStays(w, Publish(w, q, count), n, d)
  {
  }

  lemma EnterKeepsStage(w: World, q: Pid, order: seq<Name>, n: Name, d: nat)
    requires q in w.procs
    ensures StageStays(w, Enter(w, q, order), n, d)
  {
  }

  lemma StageUntouched(w: World, a: Action, p: Pid)
    requires Inv(w) && p in w.procs && OwnsStage(w.procs[p].phase) && Actor(a) != p
    ensures var ph := w.procs[p].phase;
            Named(w, ph.name, ph.dir) && w.stages[ph.dir].owner && StageStays(w, After(w, a), ph.name, ph.dir)
  {
    var n, d := w.procs[p].phase.name, w.procs[p].phase.dir;
    OthersStageOld(w, p);
    match a
    case Act(q, name, count, order) =>
      if q in w.procs {
        ActorElsewhere(w, q, p);
        PrepareKeepsStage(w, q, name, n, d);
        SweepKeepsStage(w, q, n, d);
        PublishKeepsStage(w, q, count, n, d);
        EnterKeepsStage(w, q, order, n, d);
      }
    case _ =>
  }

  /** The directory another process works on under coord.lock is not the publisher's. */
  lemma ActorElsewhere(w: World, q: Pid, p: Pid)
    requires Inv(w) && p in w.procs && q in w.procs && p != q && OwnsStage(w.procs[p].phase)
    ensures Elsewhere(w.procs[q].phase, w.procs[p].phase.name, w.procs[p].phase.dir)
  {
    OthersStageOld(w, p);
    LockHoldersApart(w, q, p);
    assert ProcOk(w, w.procs[q]);
  }

  /** So the publishing link always finds its source, with the payload in it. */
  lemma LinkFindsItsSource(actions: seq<Action>, p: Pid, count: nat)
    requires p in Run(actions).procs && Run(actions).procs[p].phase.Sealed?
    ensures var w, ph := Run(actions), Run(actions).procs[p].phase;
            && ph.dir in w.stages && w.stages[ph.dir].tmp == Some(ph.file)
            && ph.file in w.files && w.files[ph.file] == File(w.procs[p].payload, true)
            && Publish(w, p, count).procs[p].phase == Linked(ph.name, ph.dir)
  {
    RunInv(actions);
    assert ProcOk(Run(actions), Run(actions).procs[p]);
  }

  // ------------------------------------------------------------- cleanup

  /** The name a publisher cleans up now belongs to another live publisher's stage. */
  predicate NameTakenOver(w: World, name: Name, created: nat) {
    name in w.names && w.names[name] != created && w.names[name] in w.owners
  }

  /** The directory is locked by another process, the one that made it. */
  predicate LiveMaker(w: World, d: nat, p: Pid) {
    d in w.owners && w.owners[d] != p && w.owners[d] in w.procs && CreatedBy(w.procs[w.owners[d]].phase) == Some(d)
  }

  /** The cleanup after a publication reports its stage as still locked exactly
      when a later publisher has reused its name and is at work there. */
  lemma CleanupFailsExactlyOnReuse(actions: seq<Action>, p: Pid, name: Name, created: nat, n: Name, d: nat)
    requires p in Run(actions).procs && Run(actions).procs[p].phase == Opened(Cleanup(name, created), n, d)
    ensures RaisesLocked(Sweep(Run(actions), p), p) <==> NameTakenOver(Run(actions), n, created)
    ensures NameTakenOver(Run(actions), n, created) ==> LiveMaker(Run(actions), Run(actions).names[n], p)
  {
    var w := Run(actions);
    RunInv(actions);
    assert ProcOk(w, w.procs[p]) && DirOk(w, d) && HoldsItsLocks(w, p);
    if d in w.owners { HolderMadeIt(w, p, d); }
  }

  predicate RaisesLocked(w: World, p: Pid) {
    p in w.procs && w.procs[p].phase == Failed(RemainedLocked)
  }

  /** With coord.lock held by another process, a locked directory is locked by its maker. */
  lemma HolderMadeIt(w: World, p: Pid, d: nat)
    requires Inv(w) && p in w.procs && w.coord == Some(p) && d in w.owners && w.procs[p].phase.Opened?
    ensures LiveMaker(w, d, p)
    ensures CreatedBy(w.procs[p].phase) != Some(d)
    ensures d in w.stages && w.stages[d].owner
  {
    var q := w.owners[d];
    assert HolderLives(w, d);
    OwnLocks(w, p);
    OwnLocks(w, q);
    assert ProcOk(w, w.procs[q]);
    assert !SameCreated(w, p, q);
  }

  // ------------------------------------------------------------ all failures

  predicate HasFailed(w: World, p: Pid) {
    p in w.procs && w.procs[p].phase.Failed?
  }

  /** The name just drawn is taken, as the other 127 were. */
  predicate LastDrawTaken(w: World, ph: Phase, name: Name) {
    ph.Missing? && |ph.drawn| == 127 && name in w.names
  }

  /** Under coord.lock, every name of a full set of draws is there. */
  predicate AllDrawsTaken(w: World, p: Pid, draws: seq<Name>) {
    w.coord == Some(p) && |draws| == 128 && forall i :: 0 <= i < |draws| ==> draws[i] in w.names
  }

  /** The cleanup of a publication is at a stage that is no longer its own. */
  predicate CleansAnothersStage(w: World, ph: Phase) {
    ph.Opened? && ph.task.Cleanup? && NameTakenOver(w, ph.name, ph.task.created)
  }

  /** The caller names a digest, and it is not the payload's. */
  predicate ExpectsAnother(payload: Bytes, expected: Option<DigestText>) {
    expected != None && expected != Some(Proper(Hash(payload)))
  }

  /** Why an action of its own makes the process `p` raise, if it does. */
  function Cause(w: World, a: Action, p: Pid): Option<Reason> {
    match a
    case ArrivePublisher(q, payload, expected) =>
      if q == p && p !in w.procs && ExpectsAnother(payload, expected) then Some(Unexpected) else None
    case Act(q, name, _, _) =>
      if q != p || p !in w.procs then None
      else if LastDrawTaken(w, w.procs[p].phase, name) then Some(Exhausted)
      else if CleansAnothersStage(w, w.procs[p].phase) then Some(RemainedLocked)
      else None
    case _ => None
  }

  /** The process raises that error, or none. */
  predicate Ends(w: World, p: Pid, error: Option<Reason>) {
    p in w.procs && if error.Some? then w.procs[p].phase == Failed(error.value) else !w.procs[p].phase.Failed?
  }

  lemma PrepareFails(w: World, p: Pid, name: Name)
    requires Inv(w) && p in w.procs && !w.procs[p].phase.Failed?
    ensures Ends(Prepare(w, p, name), p, if LastDrawTaken(w, w.procs[p].phase, name) then Some(Exhausted) else None)
  {
    assert ProcOk(w, w.procs[p]);
    var h := Hash(w.procs[p].payload);
    if h in w.objects { assert ObjectOk(w, h); }
  }

  lemma PublishNeverFails(w: World, p: Pid, count: nat)
    requires Inv(w) && p in w.procs && !w.procs[p].phase.Failed?
    ensures Ends(Publish(w, p, count), p, None)
  {
    assert ProcOk(w, w.procs[p]);
    var h := Hash(w.procs[p].payload);
    if h in w.objects { assert ObjectOk(w, h); }
  }

  lemma InspectFails(w: World, p: Pid, t: Task, n: Name, d: nat)
    requires Inv(w) && p in w.procs && w.procs[p].phase == Opened(t, n, d)
    ensures Ends(Sweep(w, p), p, if t.Cleanup? && NameTakenOver(w, n, t.created) then Some(RemainedLocked) else None)
  {
    assert ProcOk(w, w.procs[p]) && DirOk(w, d) && HoldsItsLocks(w, p);
    if d in w.owners { HolderMadeIt(w, p, d); }
  }

  lemma ChooseNeverFails(w: World, p: Pid, t: Task)
    requires Inv(w) && p in w.procs && w.procs[p].phase == Choosing(t)
    ensures Ends(Sweep(w, p), p, None)
  {
    assert ProcOk(w, w.procs[p]);
  }

  lemma RemovingNeverFails(w: World, p: Pid)
    requires p in w.procs && (w.procs[p].phase.Taken? || w.procs[p].phase.Emptied? || w.procs[p].phase.Bare?)
    ensures Ends(Sweep(w, p), p, None)
  {
  }

  lemma EnterNeverFails(w: World, p: Pid, order: seq<Name>)
    requires p in w.procs && !w.procs[p].phase.Failed?
    ensures Ends(Enter(w, p, order), p, None)
  {
  }

  lemma SweepFails(w: World, p: Pid, ph: Phase)
    requires Inv(w) && p in w.procs && ph == w.procs[p].phase
    requires ph.Choosing? || ph.Opened? || ph.Taken? || ph.Emptied? || ph.Bare?
    ensures Ends(Sweep(w, p), p, if CleansAnothersStage(w, ph) then Some(RemainedLocked) else None)
  {
    if ph.Choosing? {
      ChooseNeverFails(w, p, ph.task);
    } else if ph.Opened? {
      InspectFails(w, p, ph.task, ph.name, ph.dir);
    } else {
      RemovingNeverFails(w, p);
    }
  }

  lemma MoveFails(w: World, p: Pid, name: Name, count: nat, order: seq<Name>)
    requires Inv(w) && p in w.procs && !w.procs[p].phase.Failed?
    ensures Ends(Move(w, p, name, count, order), p, Cause(w, Act(p, name, count, order), p))
  {
    var ph := w.procs[p].phase;
    if ph.Arriving? || ph.Published? || ph.Waiting? {
      EnterNeverFails(w, p, order);
    } else if ph.Filling? || ph.Sealed? || ph.Linked? || ph.Verified? {
      PublishNeverFails(w, p, count);
    } else if ph.Choosing? || ph.Opened? || ph.Taken? || ph.Emptied? || ph.Bare? {
      SweepFails(w, p, ph);
    } else {
      PrepareFails(w, p, name);
    }
  }

  /** Every process but `q` stands where it stood. */
  predicate OnlyMoves(w: World, w': World, q: Pid) {
    q in w.procs && q in w'.procs && w'.procs == w.procs[q := w'.procs[q]]
  }

  lemma PrepareMovesOne(w: World, q: Pid, name: Name)
    requires q in w.procs
    ensures OnlyMoves(w, Prepare(w, q, name), q)
  {
    match w.procs[q].phase
    case Entered => LookUpMovesOne(w, q);
    case Missing(drawn) => MakeStageMovesOne(w, q, drawn, name);
    case _ =>
  }

  lemma LookUpMovesOne(w: World, q: Pid)
    requires q in w.procs
    ensures OnlyMoves(w, LookUp(w, q), q)
  {
  }

  lemma MakeStageMovesOne(w: World, q: Pid, drawn: seq<Name>, name: Name)
    requires q in w.procs
    ensures OnlyMoves(w, MakeStage(w, q, drawn, name), q)
  {
  }

  lemma FillMovesOne(w: World, q: Pid, n: Name, d: nat, f: nat, count: nat)
    requires q in w.procs
    ensures OnlyMoves(w, Fill(w, q, n, d, f, count), q)
  {
  }

  lemma LinkMovesOne(w: World, q: Pid, n: Name, d: nat, f: nat)
    requires q in w.procs
    ensures OnlyMoves(w, Link(w, q, n, d, f), q)
  {
  }

  lemma VerifyMovesOne(w: World, q: Pid, n: Name, d: nat)
    requires q in w.procs
    ensures OnlyMoves(w, Verify(w, q, n, d), q) && OnlyMoves(w, Release(w, q, n, d), q)
  {
  }

  lemma PublishMovesOne(w: World, q: Pid, count: nat)
    requires q in w.procs
    ensures OnlyMoves(w, Publish(w, q, count), q)
  {
    match w.procs[q].phase
    case Filling(n, d, f) => FillMovesOne(w, q, n, d, f, count);
    case Sealed(n, d, f) => LinkMovesOne(w, q, n, d, f);
    case Linked(n, d) => VerifyMovesOne(w, q, n, d);
    case Verified(n, d) => VerifyMovesOne(w, q, n, d);
    case _ =>
  }

  lemma ChooseMovesOne(w: World, q: Pid, t: Task)
    requires q in w.procs
    ensures OnlyMoves(w, Choose(w, q, t), q)
  {
  }

  lemma InspectMovesOne(w: World, q: Pid, t: Task, n: Name, d: nat)
    requires q in w.procs
    ensures OnlyMoves(w, Inspect(w, q, t, n, d), q)
  {
  }

  lemma SweepMovesOne(w: World, q: Pid)
    requires q in w.procs
    ensures OnlyMoves(w, Sweep(w, q), q)
  {
    match w.procs[q].phase
    case Choosing(t) => ChooseMovesOne(w, q, t);
    case Opened(t, n, d) => InspectMovesOne(w, q, t, n, d);
    case _ =>
  }

  lemma MoveMovesOne(w: World, q: Pid, name: Name, count: nat, order: seq<Name>)
    requires q in w.procs
    ensures OnlyMoves(w, Move(w, q, name, count, order), q)
  {
    PrepareMovesOne(w, q, name);
    PublishMovesOne(w, q, count);
    SweepMovesOne(w, q);
    assert OnlyMoves(w, Enter(w, q, order), q);
  }

  /** Nobody else changes where a process stands, short of crashing it. */
  lemma OthersStand(w: World, a: Action, p: Pid)
    requires Actor(a) != p
    ensures p in After(w, a).procs <==> p in w.procs
    ensures p in w.procs ==> After(w, a).procs[p] == w.procs[p]
  {
    match a
    case Act(q, name, count, order) =>
      if q in w.procs { MoveMovesOne(w, q, name, count, order); }
    case _ =>
  }

  /** At every moment of every history, an action makes a process raise a
      manual-review error exactly when the caller expects another digest than the
      payload's, or the last of the 128 names drawn is taken like the others, or a
      cleanup finds its name taken over; and the error says which it was. */
  lemma FailsExactly(actions: seq<Action>, a: Action, p: Pid)
    requires !HasFailed(Run(actions), p)
    ensures var w := Run(actions);
            && (HasFailed(After(w, a), p) <==> Cause(w, a, p).Some?)
            && (HasFailed(After(w, a), p) ==> After(w, a).procs[p].phase.reason == Cause(w, a, p).value)
    ensures Cause(Run(actions), a, p) == Some(Exhausted) ==>
              AllDrawsTaken(Run(actions), p, Run(actions).procs[p].phase.drawn + [a.name])
  {
    var w := Run(actions);
    RunInv(actions);
    if p in w.procs { assert ProcOk(w, w.procs[p]) && HoldsItsLocks(w, p); }
    if Actor(a) != p {
      OthersStand(w, a, p);
    } else {
      match a
      case Act(_, name, count, order) => if p in w.procs { MoveFails(w, p, name, count, order); }
      case _ =>
    }
  }

  /** The same in terms of where a process stands: one whose caller expects another
      digest raised that and did nothing else; the names a publisher has drawn so
      far are all taken; one whose cleanup failed has its object stored. */
  lemma FailuresInState(actions: seq<Action>, p: Pid)
    requires p in Run(actions).procs
    ensures var q := Run(actions).procs[p];
            && (q.phase == Failed(Unexpected) <==> ExpectsAnother(q.payload, q.expected))
            && (q.phase.Failed? ==> q.phase.reason in {Unexpected, Exhausted, RemainedLocked})
            && (q.phase == Failed(RemainedLocked) ==> Stored(Run(actions), q.payload))
            && (q.phase.Missing? ==> |q.phase.drawn| < 128 && forall n :: n in q.phase.drawn ==> n in Run(actions).names)
  {
    RunInv(actions);
    assert ProcOk(Run(actions), Run(actions).procs[p]);
  }

  // -------------------------------------------------------- crash closure

  /** At every moment of every history a staging directory is empty, or holds
      owner.lock alone, or owner.lock and object.tmp; so no sweep finds unknown
      members, whoever crashed where. */
  lemma StagesStayRecoverable(actions: seq<Action>, d: nat)
    requires d in Run(actions).stages
    ensures var s := Run(actions).stages[d]; s == Stage(false, None) || s == Stage(true, None) || (s.owner && s.tmp.Some?)
  {
    RunInv(actions);
    assert DirOk(Run(actions), d);
  }
}
