/** What every reachable world of the evidence store satisfies. */
module EvidenceInvariant {
  import opened Options
  import opened EvidenceSteps

  // -------------------------------------------------------------- the parts

  /** The process holds coord.lock exactly when its phase says so, and likewise its owner.lock. */
  predicate HoldsItsLocks(w: World, p: Pid)
    requires p in w.procs
  {
    && (HoldsCoord(w.procs[p].phase) <==> w.coord == Some(p))
    && (LockOf(w.procs[p].phase).Some? ==>
          LockOf(w.procs[p].phase).value in w.owners && w.owners[LockOf(w.procs[p].phase).value] == p)
  }

  predicate HolderLives(w: World, d: nat)
    requires d in w.owners
  {
    w.owners[d] in w.procs && LockOf(w.procs[w.owners[d]].phase) == Some(d)
  }

  ghost predicate LocksOk(w: World) {
    && (w.coord.Some? ==> w.coord.value in w.procs)
    && (forall p {:trigger HoldsItsLocks(w, p)} :: p in w.procs ==> HoldsItsLocks(w, p))
    && (forall d {:trigger HolderLives(w, d)} :: d in w.owners ==> HolderLives(w, d))
  }

  /** A staging directory is empty, or holds owner.lock, or owner.lock and object.tmp. */
  predicate StageOk(s: Stage) {
    !s.owner ==> s.tmp.None?
  }

  predicate DirOk(w: World, d: nat)
    requires d in w.stages
  {
    d < w.nextDir && StageOk(w.stages[d]) && (w.stages[d].tmp.Some? ==> w.stages[d].tmp.value in w.files)
  }

  predicate SameTmp(w: World, d: nat, e: nat)
    requires d in w.stages && e in w.stages
  {
    w.stages[d].tmp.Some? && w.stages[d].tmp == w.stages[e].tmp
  }

  predicate SameDir(w: World, m: Name, n: Name)
    requires m in w.names && n in w.names
  {
    w.names[m] == w.names[n]
  }

  ghost predicate DirsOk(w: World) {
    && (forall n :: n in w.names ==> w.names[n] in w.stages)
    && (forall m, n {:trigger SameDir(w, m, n)} :: m in w.names && n in w.names && SameDir(w, m, n) ==> m == n)
    && (forall d {:trigger DirOk(w, d)} :: d in w.stages ==> DirOk(w, d))
    && (forall d, e {:trigger SameTmp(w, d, e)} :: d in w.stages && e in w.stages && SameTmp(w, d, e) ==> d == e)
    && (forall f :: f in w.files ==> f < w.nextFile)
  }

  /** Every name in objects/ holds, read-only, bytes that hash to it. */
  predicate ObjectOk(w: World, h: Hash)
    requires h in w.objects
  {
    w.objects[h] in w.files && w.files[w.objects[h]] == File(h.preimage, true)
  }

  ghost predicate ObjectsOk(w: World) {
    forall h {:trigger ObjectOk(w, h)} :: h in w.objects ==> ObjectOk(w, h)
  }

  predicate At(w: World, n: Name, d: nat, s: Stage) {
    n in w.names && w.names[n] == d && d in w.stages && w.stages[d] == s
  }

  predicate Named(w: World, n: Name, d: nat) {
    n in w.names && w.names[n] == d && d in w.stages
  }

  predicate Stored(w: World, payload: Bytes) {
    Hash(payload) in w.objects
  }

  predicate TaskOk(w: World, payload: Bytes, t: Task) {
    t.Cleanup? ==> Stored(w, payload)
  }

  /** What a process may rely on at each point. */
  predicate ProcOk(w: World, q: Proc) {
    && (AsExpected(q.payload, q.expected) <==> q.phase != Failed(Unexpected))
    && PhaseOk(w, q)
  }

  predicate PhaseOk(w: World, q: Proc) {
    match q.phase
    case Missing(drawn) => |drawn| < DRAWS && forall i :: 0 <= i < |drawn| ==> drawn[i] in w.names
    case HasStage(n, d) => At(w, n, d, Stage(false, None))
    case HasOwner(n, d) => At(w, n, d, Stage(true, None)) && d !in w.owners
    case HasLock(n, d) => At(w, n, d, Stage(true, None))
    case HasFile(n, d, f) => At(w, n, d, Stage(true, Some(f))) && f in w.files && w.files[f] == File([], false)
    case Filling(n, d, f) =>
      At(w, n, d, Stage(true, Some(f))) && f in w.files && !w.files[f].sealed && w.files[f].bytes <= q.payload
    case Sealed(n, d, f) =>
      At(w, n, d, Stage(true, Some(f))) && f in w.files && w.files[f] == File(q.payload, true)
    case Linked(n, d) => Named(w, n, d) && w.stages[d].owner && Stored(w, q.payload)
    case Verified(n, d) => Named(w, n, d) && w.stages[d].owner && Stored(w, q.payload)
    case Published(_, _) => Stored(w, q.payload)
    case Returned => Stored(w, q.payload)
    case Choosing(t) => TaskOk(w, q.payload, t) && (t.Recovery? ==> TodoOk(w, t.todo))
    case Opened(t, n, d) => TaskOk(w, q.payload, t) && Named(w, n, d) && (t.Recovery? ==> TodoOk(w, t.todo) && n !in t.todo)
    case Taken(t, n, d) =>
      TaskOk(w, q.payload, t) && Named(w, n, d) && w.stages[d].owner && (t.Recovery? ==> TodoOk(w, t.todo) && n !in t.todo)
    case Emptied(t, n, d) =>
      TaskOk(w, q.payload, t) && At(w, n, d, Stage(true, None)) && (t.Recovery? ==> TodoOk(w, t.todo) && n !in t.todo)
    case Bare(t, n, d) =>
      TaskOk(w, q.payload, t) && At(w, n, d, Stage(false, None)) && (t.Recovery? ==> TodoOk(w, t.todo) && n !in t.todo)
    case Failed(r) => r in {Unexpected, Exhausted, RemainedLocked} && (r.RemainedLocked? ==> Stored(w, q.payload))
    case _ => true
  }

  predicate TodoOk(w: World, todo: seq<Name>) {
    && (forall i :: 0 <= i < |todo| ==> todo[i] in w.names)
    && (forall i, j :: 0 <= i < j < |todo| ==> todo[i] != todo[j])
  }

  /** Directories are created once: no two processes created the same one. */
  ghost predicate CreatorsOk(w: World) {
    && (forall p {:trigger CreatedBefore(w, p)} :: p in w.procs ==> CreatedBefore(w, p))
    && (forall p, q {:trigger SameCreated(w, p, q)} :: p in w.procs && q in w.procs && SameCreated(w, p, q) ==> p == q)
  }

  predicate CreatedBefore(w: World, p: Pid)
    requires p in w.procs
  {
    CreatedBy(w.procs[p].phase).Some? ==> CreatedBy(w.procs[p].phase).value < w.nextDir
  }

  predicate SameCreated(w: World, p: Pid, q: Pid)
    requires p in w.procs && q in w.procs
  {
    CreatedBy(w.procs[p].phase).Some? && CreatedBy(w.procs[p].phase) == CreatedBy(w.procs[q].phase)
  }

  ghost predicate Inv(w: World) {
    && LocksOk(w) && DirsOk(w) && ObjectsOk(w) && CreatorsOk(w)
    && forall p {:trigger ProcOk(w, w.procs[p])} :: p in w.procs ==> ProcOk(w, w.procs[p])
  }

  lemma EmptyInv()
    ensures Inv(EMPTY)
  {
  }

  // ------------------------------------------------- what others rely on

  function NameOf(ph: Phase): Option<Name> {
    match ph
    case Filling(n, _, _) => Some(n)
    case Sealed(n, _, _) => Some(n)
    case Linked(n, _) => Some(n)
    case Verified(n, _) => Some(n)
    case _ => None
  }

  function FileOf(ph: Phase): Option<nat> {
    match ph
    case HasFile(_, _, f) => Some(f)
    case Filling(_, _, f) => Some(f)
    case Sealed(_, _, f) => Some(f)
    case _ => None
  }

  /** Names and directories may change elsewhere, but not where a process that
      holds an owner.lock outside coord.lock is at work. */
  predicate StageKept(w: World, w': World, q: Proc) {
    NameOf(q.phase).Some? && LockOf(q.phase).Some? ==>
      var n, d := NameOf(q.phase).value, LockOf(q.phase).value;
      Named(w, n, d) ==> Named(w', n, d) && w'.stages[d] == w.stages[d]
  }

  predicate FileKept(w: World, w': World, q: Proc) {
    FileOf(q.phase).Some? && FileOf(q.phase).value in w.files ==>
      FileOf(q.phase).value in w'.files && w'.files[FileOf(q.phase).value] == w.files[FileOf(q.phase).value]
  }

  predicate ObjectsGrow(w: World, w': World) {
    forall h :: h in w.objects ==> h in w'.objects
  }

  /** A step under coord.lock leaves everybody else's situation alone. */
  lemma OthersOutsideCoord(w: World, w': World, q: Proc)
    requires ProcOk(w, q) && !HoldsCoord(q.phase)
    requires StageKept(w, w', q) && FileKept(w, w', q) && ObjectsGrow(w, w')
    ensures ProcOk(w', q)
  {
  }

  /** A step outside coord.lock changes no name and no directory. */
  lemma OthersUnderCoord(w: World, w': World, q: Proc)
    requires ProcOk(w, q) && w'.names == w.names && w'.stages == w.stages
    requires FileKept(w, w', q) && ObjectsGrow(w, w')
    requires forall d :: d in w'.owners ==> d in w.owners
    ensures ProcOk(w', q)
  {
  }

  /** Two processes that hold owner locks are in different directories and write
      different files. */
  lemma LockHoldersApart(w: World, p: Pid, q: Pid)
    requires Inv(w) && p in w.procs && q in w.procs && p != q
    ensures LockOf(w.procs[p].phase).Some? ==> LockOf(w.procs[p].phase) != LockOf(w.procs[q].phase)
    ensures FileOf(w.procs[p].phase).Some? ==> FileOf(w.procs[p].phase) != FileOf(w.procs[q].phase)
  {
    var a, b := w.procs[p], w.procs[q];
    assert ProcOk(w, a) && ProcOk(w, b);
    assert HoldsItsLocks(w, p) && HoldsItsLocks(w, q);
    if FileOf(a.phase).Some? && FileOf(b.phase).Some? {
      var d, e := LockOf(a.phase).value, LockOf(b.phase).value;
      assert d != e;
      assert !SameTmp(w, d, e);
    }
  }
}
