/** Every action keeps the invariant of the evidence store. */
module EvidencePreserved {
  import opened Options
  import opened EvidenceSteps
  import opened EvidenceInvariant

  /** Process `p` moved, and nobody else's situation was touched. */
  ghost predicate Local(w: World, w': World, p: Pid) {
    && p in w.procs && p in w'.procs && w'.procs == w.procs[p := w'.procs[p]]
    && ObjectsGrow(w, w')
    && (forall q {:trigger FileKept(w, w', w.procs[q])} :: q in w.procs && q != p ==> FileKept(w, w', w.procs[q]))
    && if w.coord == Some(p)
       then forall q {:trigger StageKept(w, w', w.procs[q])} :: q in w.procs && q != p ==> StageKept(w, w', w.procs[q])
       else w'.names == w.names && w'.stages == w.stages && forall d :: d in w'.owners ==> d in w.owners
  }

  lemma LocalKeepsInv(w: World, w': World, p: Pid)
    requires Inv(w) && Local(w, w', p)
    requires LocksOk(w') && DirsOk(w') && ObjectsOk(w') && CreatorsOk(w') && ProcOk(w', w'.procs[p])
    ensures Inv(w')
  {
    forall q | q in w'.procs ensures ProcOk(w', w'.procs[q]) {
      if q != p {
        assert ProcOk(w, w.procs[q]);
        assert FileKept(w, w', w.procs[q]) && HoldsItsLocks(w, q);
        if w.coord == Some(p) {
          assert StageKept(w, w', w.procs[q]);
          OthersOutsideCoord(w, w', w.procs[q]);
        } else {
          OthersUnderCoord(w, w', w.procs[q]);
        }
      }
    }
  }

  // -------------------------------------------- the parts, one step at a time

  /** Only `p` took or dropped locks, and its phase says which. */
  ghost predicate LocksMove(w: World, w': World, p: Pid) {
    && p in w.procs && p in w'.procs && w'.procs == w.procs[p := w'.procs[p]]
    && (w'.coord == w.coord || (w.coord in {None, Some(p)} && w'.coord in {None, Some(p)}))
    && (HoldsCoord(w'.procs[p].phase) <==> w'.coord == Some(p))
    && (forall d :: d in w'.owners ==>
          if w'.owners[d] == p then LockOf(w'.procs[p].phase) == Some(d) else d in w.owners && w.owners[d] == w'.owners[d])
    && (forall d :: d in w.owners && w.owners[d] != p ==> d in w'.owners && w'.owners[d] == w.owners[d])
    && (LockOf(w'.procs[p].phase).Some? ==>
          LockOf(w'.procs[p].phase).value in w'.owners && w'.owners[LockOf(w'.procs[p].phase).value] == p)
  }

  /** A process holds the locks its phase names, and no other owner.lock. */
  lemma OwnLocks(w: World, p: Pid)
    requires LocksOk(w) && p in w.procs
    ensures HoldsItsLocks(w, p)
    ensures forall d :: d in w.owners && w.owners[d] == p ==> LockOf(w.procs[p].phase) == Some(d)
  {
    forall d | d in w.owners && w.owners[d] == p ensures LockOf(w.procs[p].phase) == Some(d) {
      assert HolderLives(w, d);
    }
  }

  lemma LocksMoved(w: World, w': World, p: Pid)
    requires LocksOk(w) && LocksMove(w, w', p)
    ensures LocksOk(w')
  {
    forall q | q in w'.procs ensures HoldsItsLocks(w', q) { if q != p { assert HoldsItsLocks(w, q); } }
    forall d | d in w'.owners ensures HolderLives(w', d) { if w'.owners[d] != p { assert HolderLives(w, d); } }
  }

  /** No name and no directory changed, and no file went away. */
  lemma DirsFrame(w: World, w': World)
    requires DirsOk(w) && w'.names == w.names && w'.stages == w.stages && w'.nextDir == w.nextDir
    requires w'.nextFile == w.nextFile && w'.files.Keys == w.files.Keys
    ensures DirsOk(w')
  {
    forall d | d in w'.stages ensures DirOk(w', d) { assert DirOk(w, d); }
    forall d, e | d in w'.stages && e in w'.stages && SameTmp(w', d, e) ensures d == e { assert SameTmp(w, d, e); }
    forall m, n | m in w'.names && n in w'.names && SameDir(w', m, n) ensures m == n { assert SameDir(w, m, n); }
  }

  /** One directory's members changed; its object.tmp, if any, is new. */
  lemma DirsOneStage(w: World, w': World, d: nat)
    requires DirsOk(w) && w'.names == w.names && d in w.stages && d in w'.stages && w'.nextDir == w.nextDir
    requires w'.stages == w.stages[d := w'.stages[d]] && StageOk(w'.stages[d])
    requires w.nextFile <= w'.nextFile
    requires forall f :: f in w.files ==> f in w'.files
    requires forall f :: f in w'.files ==> f < w'.nextFile
    requires w'.stages[d].tmp.Some? ==> w'.stages[d].tmp.value in w'.files && w'.stages[d].tmp.value >= w.nextFile
    ensures DirsOk(w')
  {
    forall e | e in w'.stages ensures DirOk(w', e) { assert DirOk(w, e); }
    forall e, o | e in w'.stages && o in w'.stages && SameTmp(w', e, o) ensures e == o {
      assert DirOk(w, e) && DirOk(w, o);
      if e != d && o != d { assert SameTmp(w, e, o); }
    }
    forall m, n | m in w'.names && n in w'.names && SameDir(w', m, n) ensures m == n { assert SameDir(w, m, n); }
  }

  /** A new, empty directory under a new name. */
  lemma DirsNewStage(w: World, w': World, name: Name)
    requires DirsOk(w) && name !in w.names && w'.files == w.files && w'.nextFile == w.nextFile
    requires w'.names == w.names[name := w.nextDir] && w'.stages == w.stages[w.nextDir := Stage(false, None)]
    requires w'.nextDir == w.nextDir + 1
    ensures DirsOk(w')
  {
    forall d | d in w'.stages ensures DirOk(w', d) { if d != w.nextDir { assert DirOk(w, d); } }
    forall d, e | d in w'.stages && e in w'.stages && SameTmp(w', d, e) ensures d == e { assert SameTmp(w, d, e); }
    forall n | n in w.names ensures w.names[n] != w.nextDir { assert DirOk(w, w.names[n]); }
    forall m, n | m in w'.names && n in w'.names && SameDir(w', m, n) ensures m == n {
      if m != name && n != name { assert SameDir(w, m, n); }
    }
  }

  lemma DirsRemoved(w: World, w': World, name: Name)
    requires DirsOk(w) && name in w.names && w'.files == w.files && w'.nextFile == w.nextFile && w'.nextDir == w.nextDir
    requires w'.names == w.names - {name} && w'.stages == w.stages - {w.names[name]}
    ensures DirsOk(w')
  {
    forall d | d in w'.stages ensures DirOk(w', d) { assert DirOk(w, d); }
    forall d, e | d in w'.stages && e in w'.stages && SameTmp(w', d, e) ensures d == e { assert SameTmp(w, d, e); }
    forall n | n in w'.names ensures w'.names[n] in w'.stages { assert !SameDir(w, n, name); }
    forall m, n | m in w'.names && n in w'.names && SameDir(w', m, n) ensures m == n { assert SameDir(w, m, n); }
  }

  /** No sealed file changed. */
  lemma ObjectsFrame(w: World, w': World)
    requires ObjectsOk(w) && w'.objects == w.objects
    requires forall f :: f in w.files && w.files[f].sealed ==> f in w'.files && w'.files[f] == w.files[f]
    ensures ObjectsOk(w')
  {
    forall h | h in w'.objects ensures ObjectOk(w', h) { assert ObjectOk(w, h); }
  }

  /** The created directories stay distinct when one process keeps, drops or freshly gets its own. */
  lemma CreatedFewer(w: World, w': World, p: Pid)
    requires CreatorsOk(w) && p in w.procs && p in w'.procs && w'.procs == w.procs[p := w'.procs[p]]
    requires w.nextDir <= w'.nextDir
    requires CreatedBy(w'.procs[p].phase) in {None, CreatedBy(w.procs[p].phase)}
             || (CreatedBy(w'.procs[p].phase) == Some(w.nextDir) && w.nextDir < w'.nextDir)
    ensures CreatorsOk(w')
  {
    forall q | q in w'.procs ensures CreatedBefore(w', q) { assert CreatedBefore(w, q); }
    forall o, r | o in w'.procs && r in w'.procs && SameCreated(w', o, r) ensures o == r {
      assert CreatedBefore(w, o) && CreatedBefore(w, r);
      if CreatedBy(w'.procs[p].phase) == CreatedBy(w.procs[p].phase) || (o != p && r != p) {
        assert SameCreated(w, o, r);
      }
    }
  }

  // ------------------------------------------------------------- arrivals

  lemma ArrivalKeepsInv(w: World, p: Pid, q: Proc)
    requires Inv(w) && p !in w.procs && (q == RECOVERER || q == Publisher(q.payload, q.expected))
    ensures Inv(w.(procs := w.procs[p := q]))
  {
    var w' := w.(procs := w.procs[p := q]);
    DirsFrame(w, w');
    ObjectsFrame(w, w');
    forall o | o in w'.procs ensures HoldsItsLocks(w', o) { if o != p { assert HoldsItsLocks(w, o); } }
    forall d | d in w'.owners ensures HolderLives(w', d) { assert HolderLives(w, d); }
    forall o | o in w'.procs ensures ProcOk(w', w'.procs[o]) {
      if o != p {
        assert ProcOk(w, w.procs[o]);
        ProcFrame(w, w', w.procs[o]);
      }
    }
    forall o | o in w'.procs ensures CreatedBefore(w', o) { if o != p { assert CreatedBefore(w, o); } }
    forall o, r | o in w'.procs && r in w'.procs && SameCreated(w', o, r) ensures o == r {
      assert SameCreated(w, o, r);
    }
  }

  /** What a process relies on is in the file system and the locks, not in other processes. */
  lemma ProcFrame(w: World, w': World, q: Proc)
    requires ProcOk(w, q)
    requires w'.names == w.names && w'.stages == w.stages && w'.files == w.files && w'.objects == w.objects
    requires forall d :: d in w'.owners ==> d in w.owners
    ensures ProcOk(w', q)
  {
  }

  lemma CrashKeepsInv(w: World, p: Pid)
    requires Inv(w)
    ensures Inv(After(w, Crash(p)))
  {
    var w' := After(w, Crash(p));
    DirsFrame(w, w');
    ObjectsFrame(w, w');
    forall o | o in w'.procs ensures HoldsItsLocks(w', o) { assert HoldsItsLocks(w, o); }
    forall d | d in w'.owners ensures HolderLives(w', d) { assert HolderLives(w, d); }
    forall o | o in w'.procs ensures ProcOk(w', w'.procs[o]) {
      assert ProcOk(w, w.procs[o]);
      ProcFrame(w, w', w.procs[o]);
    }
    forall o | o in w'.procs ensures CreatedBefore(w', o) { assert CreatedBefore(w, o); }
    forall o, r | o in w'.procs && r in w'.procs && SameCreated(w', o, r) ensures o == r {
      assert SameCreated(w, o, r);
    }
  }

  /** A failure for one of the reasons that can occur keeps the invariant. */
  lemma FailKeepsInv(w: World, p: Pid, r: Reason)
    requires Inv(w) && p in w.procs && w.procs[p].phase != Failed(Unexpected) && r in {Exhausted, RemainedLocked}
    requires r.RemainedLocked? ==> Stored(w, w.procs[p].payload)
    ensures Inv(Fail(w, p, r))
  {
    var w' := Fail(w, p, r);
    OwnLocks(w, p);
    assert ProcOk(w, w.procs[p]);
    LocksMoved(w, w', p);
    StillKeepsInv(w, w', p);
  }

  /** A step that changes no file system state, only the process and its locks. */
  lemma StillKeepsInv(w: World, w': World, p: Pid)
    requires Inv(w) && p in w.procs && p in w'.procs && w'.procs == w.procs[p := w'.procs[p]]
    requires w' == w.(procs := w'.procs, coord := w'.coord, owners := w'.owners)
    requires LocksOk(w') && ProcOk(w', w'.procs[p])
    requires CreatedBy(w'.procs[p].phase) in {None, CreatedBy(w.procs[p].phase)}
    requires w.coord != Some(p) ==> forall d :: d in w'.owners ==> d in w.owners
    ensures Inv(w')
  {
    DirsFrame(w, w');
    ObjectsFrame(w, w');
    CreatedFewer(w, w', p);
    LocalKeepsInv(w, w', p);
  }

  // ------------------------------------------------------------ entering

  /** Taking a free coord.lock. */
  lemma EnteredKeepsInv(w: World, p: Pid, ph: Phase)
    requires Inv(w) && p in w.procs && w.coord.None?
    requires LockOf(w.procs[p].phase).None? && LockOf(ph).None? && HoldsCoord(ph)
    requires CreatedBy(ph) in {None, CreatedBy(w.procs[p].phase)}
    requires ProcOk(To(w.(coord := Some(p)), p, ph), w.procs[p].(phase := ph))
    ensures Inv(To(w.(coord := Some(p)), p, ph))
  {
    var w' := To(w.(coord := Some(p)), p, ph);
    OwnLocks(w, p);
    LocksMoved(w, w', p);
    StillKeepsInv(w, w', p);
  }

  lemma EnterKeepsInv(w: World, p: Pid, order: seq<Name>)
    requires Inv(w) && p in w.procs
    ensures Inv(Enter(w, p, order))
  {
    var w' := Enter(w, p, order);
    if w' != w {
      assert ProcOk(w, w.procs[p]);
      EnteredKeepsInv(w, p, w'.procs[p].phase);
    }
  }

  // ------------------------------------------------- publishing under the lock

  lemma LookUpKeepsInv(w: World, p: Pid)
    requires Inv(w) && p in w.procs && w.procs[p].phase.Entered?
    ensures Inv(LookUp(w, p))
  {
    var w' := LookUp(w, p);
    OwnLocks(w, p);
    assert ProcOk(w, w.procs[p]);
    var h := Hash(w.procs[p].payload);
    if h in w.objects { assert ObjectOk(w, h); }
    LocksMoved(w, w', p);
    StillKeepsInv(w, w', p);
  }

  /** The name drawn is taken. */
  lemma DrawKeepsInv(w: World, p: Pid, drawn: seq<Name>, name: Name)
    requires Inv(w) && p in w.procs && w.procs[p].phase == Missing(drawn) && name in w.names
    ensures Inv(MakeStage(w, p, drawn, name))
  {
    var w' := MakeStage(w, p, drawn, name);
    assert ProcOk(w, w.procs[p]);
    if |drawn| + 1 < DRAWS {
      OwnLocks(w, p);
      LocksMoved(w, w', p);
      StillKeepsInv(w, w', p);
    } else {
      FailKeepsInv(w, p, Exhausted);
    }
  }

  lemma MakeStageKeepsInv(w: World, p: Pid, drawn: seq<Name>, name: Name)
    requires Inv(w) && p in w.procs && w.procs[p].phase == Missing(drawn)
    ensures Inv(MakeStage(w, p, drawn, name))
  {
    var w' := MakeStage(w, p, drawn, name);
    if name in w.names {
      DrawKeepsInv(w, p, drawn, name);
    } else {
      OwnLocks(w, p);
      assert ProcOk(w, w.procs[p]);
      LocksMoved(w, w', p);
      DirsNewStage(w, w', name);
      ObjectsFrame(w, w');
      CreatedFewer(w, w', p);
      forall q | q in w.procs && q != p ensures StageKept(w, w', w.procs[q]) {
        if NameOf(w.procs[q].phase).Some? { OthersStageOld(w, q); }
      }
      LocalKeepsInv(w, w', p);
    }
  }

  lemma OthersStageOld(w: World, q: Pid)
    requires Inv(w) && q in w.procs && NameOf(w.procs[q].phase).Some?
    ensures LockOf(w.procs[q].phase).Some?
    ensures Named(w, NameOf(w.procs[q].phase).value, LockOf(w.procs[q].phase).value)
    ensures w.stages[LockOf(w.procs[q].phase).value].owner && LockOf(w.procs[q].phase).value < w.nextDir
    ensures LockOf(w.procs[q].phase).value in w.owners && w.owners[LockOf(w.procs[q].phase).value] == q
  {
    assert ProcOk(w, w.procs[q]) && HoldsItsLocks(w, q);
    assert DirOk(w, LockOf(w.procs[q].phase).value);
  }

  /** A step under coord.lock on a directory whose owner.lock nobody else holds. */
  lemma OwnStageKeepsInv(w: World, w': World, p: Pid, d: nat)
    requires Inv(w) && w.coord == Some(p) && p in w.procs && p in w'.procs && w'.procs == w.procs[p := w'.procs[p]]
    requires d in w.stages && (d in w.owners ==> w.owners[d] == p)
    requires w'.names == w.names && w'.objects == w.objects && w'.nextDir == w.nextDir
    requires d in w'.stages && w'.stages == w.stages[d := w'.stages[d]]
    requires forall f :: f in w.files ==> f in w'.files && w'.files[f] == w.files[f]
    requires LocksOk(w') && DirsOk(w') && ProcOk(w', w'.procs[p])
    requires CreatedBy(w'.procs[p].phase) in {None, CreatedBy(w.procs[p].phase)}
    ensures Inv(w')
  {
    ObjectsFrame(w, w');
    CreatedFewer(w, w', p);
    forall q | q in w.procs && q != p ensures StageKept(w, w', w.procs[q]) {
      if NameOf(w.procs[q].phase).Some? { OthersStageOld(w, q); }
    }
    LocalKeepsInv(w, w', p);
  }

  /** Nobody holds the lock of a directory without owner.lock. */
  lemma UnownedIsUnlocked(w: World, d: nat)
    requires Inv(w) && d in w.stages && !w.stages[d].owner
    ensures d !in w.owners
  {
    forall p | p in w.procs ensures LockOf(w.procs[p].phase) != Some(d) { assert ProcOk(w, w.procs[p]); }
    assert d in w.owners ==> HolderLives(w, d);
  }

  lemma MakeOwnerKeepsInv(w: World, p: Pid, n: Name, d: nat)
    requires Inv(w) && p in w.procs && w.procs[p].phase == HasStage(n, d)
    ensures Inv(MakeOwner(w, p, n, d))
  {
    var w' := MakeOwner(w, p, n, d);
    OwnLocks(w, p);
    assert ProcOk(w, w.procs[p]);
    UnownedIsUnlocked(w, d);
    LocksMoved(w, w', p);
    DirsOneStage(w, w', d);
    OwnStageKeepsInv(w, w', p, d);
  }

  lemma LockOwnerKeepsInv(w: World, p: Pid, n: Name, d: nat)
    requires Inv(w) && p in w.procs && w.procs[p].phase == HasOwner(n, d)
    ensures Inv(LockOwner(w, p, n, d)) && d !in w.owners
  {
    var w' := LockOwner(w, p, n, d);
    OwnLocks(w, p);
    assert ProcOk(w, w.procs[p]);
    LocksMoved(w, w', p);
    StillKeepsInv(w, w', p);
  }

  lemma MakeFileKeepsInv(w: World, p: Pid, n: Name, d: nat)
    requires Inv(w) && p in w.procs && w.procs[p].phase == HasLock(n, d)
    ensures Inv(MakeFile(w, p, n, d))
  {
    var w' := MakeFile(w, p, n, d);
    OwnLocks(w, p);
    assert ProcOk(w, w.procs[p]);
    LocksMoved(w, w', p);
    DirsOneStage(w, w', d);
    OwnStageKeepsInv(w, w', p, d);
  }

  lemma LeaveKeepsInv(w: World, p: Pid, n: Name, d: nat, f: nat)
    requires Inv(w) && p in w.procs && w.procs[p].phase == HasFile(n, d, f)
    ensures Inv(Leave(w, p, n, d, f))
  {
    var w' := Leave(w, p, n, d, f);
    OwnLocks(w, p);
    assert ProcOk(w, w.procs[p]);
    LocksMoved(w, w', p);
    StillKeepsInv(w, w', p);
  }

  // -------------------------------------------------- publishing outside it

  /** A write or a chmod on the process's own unsealed file. */
  lemma OwnFileKeepsInv(w: World, w': World, p: Pid, f: nat)
    requires Inv(w) && p in w.procs && w.procs[p].phase.Filling? && f == w.procs[p].phase.file
    requires f in w.files && !w.files[f].sealed && f in w'.files
    requires p in w'.procs && w'.procs == w.procs[p := w'.procs[p]]
    requires w' == w.(procs := w'.procs, files := w.files[f := w'.files[f]])
    requires w'.procs[p].phase in {w.procs[p].phase, Sealed(w.procs[p].phase.name, w.procs[p].phase.dir, f)}
    requires ProcOk(w', w'.procs[p])
    ensures Inv(w')
  {
    OwnLocks(w, p);
    LocksMoved(w, w', p);
    DirsFrame(w, w');
    ObjectsFrame(w, w');
    CreatedFewer(w, w', p);
    forall q | q in w.procs && q != p ensures FileKept(w, w', w.procs[q]) { LockHoldersApart(w, p, q); }
    LocalKeepsInv(w, w', p);
  }

  lemma FillKeepsInv(w: World, p: Pid, n: Name, d: nat, f: nat, count: nat)
    requires Inv(w) && p in w.procs && w.procs[p].phase == Filling(n, d, f)
    ensures Inv(Fill(w, p, n, d, f, count))
  {
    assert ProcOk(w, w.procs[p]);
    OwnFileKeepsInv(w, Fill(w, p, n, d, f, count), p, f);
  }

  lemma LinkKeepsInv(w: World, p: Pid, n: Name, d: nat, f: nat)
    requires Inv(w) && p in w.procs && w.procs[p].phase == Sealed(n, d, f)
    ensures Inv(Link(w, p, n, d, f))
  {
    var w' := Link(w, p, n, d, f);
    OwnLocks(w, p);
    assert ProcOk(w, w.procs[p]);
    LocksMoved(w, w', p);
    DirsFrame(w, w');
    forall h | h in w'.objects ensures ObjectOk(w', h) { if h in w.objects { assert ObjectOk(w, h); } }
    CreatedFewer(w, w', p);
    LocalKeepsInv(w, w', p);
  }

  lemma VerifyKeepsInv(w: World, p: Pid, n: Name, d: nat)
    requires Inv(w) && p in w.procs && w.procs[p].phase == Linked(n, d)
    ensures Inv(Verify(w, p, n, d))
  {
    var w' := Verify(w, p, n, d);
    OwnLocks(w, p);
    assert ProcOk(w, w.procs[p]);
    assert ObjectOk(w, Hash(w.procs[p].payload));
    LocksMoved(w, w', p);
    StillKeepsInv(w, w', p);
  }

  lemma ReleaseKeepsInv(w: World, p: Pid, n: Name, d: nat)
    requires Inv(w) && p in w.procs && w.procs[p].phase == Verified(n, d)
    ensures Inv(Release(w, p, n, d))
  {
    var w' := Release(w, p, n, d);
    OwnLocks(w, p);
    assert ProcOk(w, w.procs[p]);
    LocksMoved(w, w', p);
    StillKeepsInv(w, w', p);
  }

  // ---------------------------------------------------------------- sweeping

  lemma NextStageKeepsInv(w: World, p: Pid, t: Task)
    requires Inv(w) && p in w.procs && w.procs[p].phase == Choosing(t) && t.Recovery?
    ensures Inv(Choose(w, p, t))
  {
    var w' := Choose(w, p, t);
    OwnLocks(w, p);
    assert ProcOk(w, w.procs[p]);
    LocksMoved(w, w', p);
    StillKeepsInv(w, w', p);
  }

  lemma OwnStageNextKeepsInv(w: World, p: Pid, t: Task)
    requires Inv(w) && p in w.procs && w.procs[p].phase == Choosing(t) && t.Cleanup?
    ensures Inv(Choose(w, p, t))
  {
    var w' := Choose(w, p, t);
    OwnLocks(w, p);
    assert ProcOk(w, w.procs[p]);
    LocksMoved(w, w', p);
    StillKeepsInv(w, w', p);
  }

  lemma ChooseKeepsInv(w: World, p: Pid, t: Task)
    requires Inv(w) && p in w.procs && w.procs[p].phase == Choosing(t)
    ensures Inv(Choose(w, p, t))
  {
    if t.Recovery? { NextStageKeepsInv(w, p, t); } else { OwnStageNextKeepsInv(w, p, t); }
  }

  /** The stage is locked by somebody else: it is retained, or the cleanup fails. */
  lemma RetainKeepsInv(w: World, p: Pid, t: Task, n: Name, d: nat)
    requires Inv(w) && p in w.procs && w.procs[p].phase == Opened(t, n, d)
    ensures Inv(Retained(w, p, t, n))
  {
    var w' := Retained(w, p, t, n);
    OwnLocks(w, p);
    assert ProcOk(w, w.procs[p]);
    if t.Cleanup? {
      FailKeepsInv(w, p, RemainedLocked);
    } else {
      LocksMoved(w, w', p);
      StillKeepsInv(w, w', p);
    }
  }

  lemma TakeKeepsInv(w: World, p: Pid, t: Task, n: Name, d: nat)
    requires Inv(w) && p in w.procs && w.procs[p].phase == Opened(t, n, d) && d !in w.owners && d in w.stages && w.stages[d].owner
    ensures Inv(To(w.(owners := w.owners[d := p]), p, Taken(t, n, d)))
  {
    var w' := To(w.(owners := w.owners[d := p]), p, Taken(t, n, d));
    OwnLocks(w, p);
    assert ProcOk(w, w.procs[p]);
    LocksMoved(w, w', p);
    StillKeepsInv(w, w', p);
  }

  lemma EmptyStageKeepsInv(w: World, p: Pid, t: Task, n: Name, d: nat)
    requires Inv(w) && p in w.procs && w.procs[p].phase == Opened(t, n, d) && At(w, n, d, Stage(false, None))
    ensures Inv(To(w, p, Bare(t, n, d)))
  {
    var w' := To(w, p, Bare(t, n, d));
    OwnLocks(w, p);
    assert ProcOk(w, w.procs[p]);
    LocksMoved(w, w', p);
    StillKeepsInv(w, w', p);
  }

  lemma InspectKeepsInv(w: World, p: Pid, t: Task, n: Name, d: nat)
    requires Inv(w) && p in w.procs && w.procs[p].phase == Opened(t, n, d)
    ensures Inv(Inspect(w, p, t, n, d))
  {
    assert ProcOk(w, w.procs[p]) && DirOk(w, d);
    if !w.stages[d].owner {
      EmptyStageKeepsInv(w, p, t, n, d);
    } else if d in w.owners {
      RetainKeepsInv(w, p, t, n, d);
    } else {
      TakeKeepsInv(w, p, t, n, d);
    }
  }

  lemma UnlinkTmpKeepsInv(w: World, p: Pid, t: Task, n: Name, d: nat)
    requires Inv(w) && p in w.procs && w.procs[p].phase == Taken(t, n, d)
    ensures Inv(UnlinkTmp(w, p, t, n, d))
  {
    var w' := UnlinkTmp(w, p, t, n, d);
    OwnLocks(w, p);
    assert ProcOk(w, w.procs[p]);
    LocksMoved(w, w', p);
    DirsOneStage(w, w', d);
    OwnStageKeepsInv(w, w', p, d);
  }

  lemma UnlinkOwnerKeepsInv(w: World, p: Pid, t: Task, n: Name, d: nat)
    requires Inv(w) && p in w.procs && w.procs[p].phase == Emptied(t, n, d)
    ensures Inv(UnlinkOwner(w, p, t, n, d))
  {
    var w' := UnlinkOwner(w, p, t, n, d);
    OwnLocks(w, p);
    assert ProcOk(w, w.procs[p]);
    LocksMoved(w, w', p);
    DirsOneStage(w, w', d);
    OwnStageKeepsInv(w, w', p, d);
  }

  lemma RemoveStageKeepsInv(w: World, p: Pid, t: Task, n: Name, d: nat)
    requires Inv(w) && p in w.procs && w.procs[p].phase == Bare(t, n, d)
    ensures Inv(RemoveStage(w, p, t, n, d))
  {
    var w' := RemoveStage(w, p, t, n, d);
    OwnLocks(w, p);
    assert ProcOk(w, w.procs[p]);
    LocksMoved(w, w', p);
    DirsRemoved(w, w', n);
    ObjectsFrame(w, w');
    CreatedFewer(w, w', p);
    forall q | q in w.procs && q != p ensures StageKept(w, w', w.procs[q]) {
      if NameOf(w.procs[q].phase).Some? { OthersStageOld(w, q); }
    }
    LocalKeepsInv(w, w', p);
  }

  // -------------------------------------------------------------- any action

  lemma PrepareKeepsInv(w: World, p: Pid, name: Name)
    requires Inv(w) && p in w.procs
    ensures Inv(Prepare(w, p, name))
  {
    match w.procs[p].phase
    case Entered => LookUpKeepsInv(w, p);
    case Missing(drawn) => MakeStageKeepsInv(w, p, drawn, name);
    case HasStage(n, d) => MakeOwnerKeepsInv(w, p, n, d);
    case HasOwner(n, d) => LockOwnerKeepsInv(w, p, n, d);
    case HasLock(n, d) => MakeFileKeepsInv(w, p, n, d);
    case HasFile(n, d, f) => LeaveKeepsInv(w, p, n, d, f);
    case _ =>
  }

  lemma PublishKeepsInv(w: World, p: Pid, count: nat)
    requires Inv(w) && p in w.procs
    ensures Inv(Publish(w, p, count))
  {
    match w.procs[p].phase
    case Filling(n, d, f) => FillKeepsInv(w, p, n, d, f, count);
    case Sealed(n, d, f) => LinkKeepsInv(w, p, n, d, f);
    case Linked(n, d) => VerifyKeepsInv(w, p, n, d);
    case Verified(n, d) => ReleaseKeepsInv(w, p, n, d);
    case _ =>
  }

  lemma SweepKeepsInv(w: World, p: Pid)
    requires Inv(w) && p in w.procs
    ensures Inv(Sweep(w, p))
  {
    match w.procs[p].phase
    case Choosing(t) => ChooseKeepsInv(w, p, t);
    case Opened(t, n, d) => InspectKeepsInv(w, p, t, n, d);
    case Taken(t, n, d) => UnlinkTmpKeepsInv(w, p, t, n, d);
    case Emptied(t, n, d) => UnlinkOwnerKeepsInv(w, p, t, n, d);
    case Bare(t, n, d) => RemoveStageKeepsInv(w, p, t, n, d);
    case _ =>
  }

  lemma AfterKeepsInv(w: World, a: Action)
    requires Inv(w)
    ensures Inv(After(w, a))
  {
    match a
    case ArrivePublisher(p, payload, expected) => if p !in w.procs { ArrivalKeepsInv(w, p, Publisher(payload, expected)); }
    case ArriveRecoverer(p) => if p !in w.procs { ArrivalKeepsInv(w, p, RECOVERER); }
    case Crash(p) => CrashKeepsInv(w, p);
    case Act(p, name, count, order) =>
      if p in w.procs {
        EnterKeepsInv(w, p, order);
        PublishKeepsInv(w, p, count);
        SweepKeepsInv(w, p);
        PrepareKeepsInv(w, p, name);
      }
  }

  lemma {:induction false} FromKeepsInv(w: World, actions: seq<Action>)
    requires Inv(w)
    ensures Inv(From(w, actions))
    decreases |actions|
  {
    if actions != [] {
      AfterKeepsInv(w, actions[0]);
      FromKeepsInv(After(w, actions[0]), actions[1..]);
    }
  }

  /** Every world any history reaches satisfies the invariant. */
  lemma RunInv(actions: seq<Action>)
    ensures Inv(Run(actions))
  {
    EmptyInv();
    FromKeepsInv(EMPTY, actions);
  }
}
