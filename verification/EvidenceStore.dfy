/** The evidence store's own loops, run by one process while no other is alive:
    recovery empties .staging, and a publication stores its object. Each
    statement is one step of EvidenceSteps. */
module EvidenceStore {
  import opened Options
  import opened EvidenceSteps
  import opened EvidenceInvariant
  import opened EvidencePreserved

  /** Nobody holds a lock: every other process has returned or died. */
  predicate Quiet(w: World) {
    w.coord.None? && w.owners == map[]
  }

  /** Between two stages of a recovery. */
  ghost predicate Recovering(w: World, p: Pid, todo: seq<Name>, removed: seq<Name>) {
    && Inv(w) && p in w.procs && w.owners == map[] && w.coord == Some(p)
    && w.procs[p].phase == Choosing(Recovery(todo, removed, [])) && IsListing(todo, w.names)
  }

  // --------------------------------------------------------- drawing a name

  predicate AllTaken(draws: seq<Name>, names: map<Name, nat>) {
    forall k :: 0 <= k < |draws| ==> draws[k] in names
  }

  /** The first of the drawn names that nobody uses. */
  ghost predicate IsFirstFree(name: Name, draws: seq<Name>, names: map<Name, nat>) {
    name !in names && exists k :: 0 <= k < |draws| && draws[k] == name && forall i :: 0 <= i < k ==> draws[i] in names
  }

  /** Still looking for a name, with these tried. */
  predicate Drawing(w: World, w': World, p: Pid, tried: seq<Name>) {
    p in w.procs && w' == To(w, p, Missing(tried))
  }

  /** One more draw, in terms of the world before the first. */
  lemma DrawnNext(w: World, w': World, p: Pid, draws: seq<Name>, i: nat)
    requires i < |draws| == DRAWS && Drawing(w, w', p, draws[..i])
    ensures var next := MakeStage(w', p, draws[..i], draws[i]);
            && (draws[i] !in w.names ==> next == MakeStage(w, p, [], draws[i]) && next.procs[p].phase.HasStage?)
            && (draws[i] in w.names && i + 1 < DRAWS ==> Drawing(w, next, p, draws[..i + 1]))
            && (draws[i] in w.names && i + 1 == DRAWS ==> next == Fail(w, p, Exhausted))
  {
    assert draws[..i] + [draws[i]] == draws[..i + 1];
    forall ph: Phase ensures w.procs[p := w.procs[p].(phase := Missing(draws[..i]))][p := w.procs[p].(phase := ph)]
                             == w.procs[p := w.procs[p].(phase := ph)] {}
  }

  /** How a publication by the only live process ends. */
  function Outcome(w: World, payload: Bytes, expected: Option<DigestText>, draws: seq<Name>): Phase {
    if !AsExpected(payload, expected) then Failed(Unexpected)
    else if Hash(payload) !in w.objects && AllTaken(draws, w.names) then Failed(Exhausted)
    else Returned
  }

  class EvidenceArtifactStore {
    var world: World

    constructor ()
      ensures world == EMPTY
    {
      world := EMPTY;
    }

    /** Take the owner lock and unlink whatever the stage holds. */
    method EmptyStage(p: Pid, t: Task, n: Name, d: nat)
      requires Inv(world) && p in world.procs && world.procs[p].phase == Opened(t, n, d) && world.owners == map[]
      modifies this
      ensures Inv(world) && world == To(old(world).(stages := world.stages), p, Bare(t, n, d))
    {
      ghost var w := world;
      assert ProcOk(w, w.procs[p]) && DirOk(w, d);
      InspectKeepsInv(world, p, t, n, d);
      world := Inspect(world, p, t, n, d);
      if world.procs[p].phase.Taken? { UnlinkMembers(p, t, n, d); }
      assert world.procs == w.procs[p := w.procs[p].(phase := Bare(t, n, d))];
    }

    method UnlinkMembers(p: Pid, t: Task, n: Name, d: nat)
      requires Inv(world) && p in world.procs && world.procs[p].phase == Taken(t, n, d) && world.owners == map[d := p]
      modifies this
      ensures Inv(world) && world == To(old(world).(stages := world.stages, owners := map[]), p, Bare(t, n, d))
    {
      UnlinkTmpKeepsInv(world, p, t, n, d);
      world := UnlinkTmp(world, p, t, n, d);
      UnlinkOwnerKeepsInv(world, p, t, n, d);
      world := UnlinkOwner(world, p, t, n, d);
      assert world.owners == map[];
    }

    /** `_recover_stage_locked` on the stage just opened, which nobody has locked. */
    method RecoverStage(p: Pid, t: Task, n: Name, d: nat)
      requires Inv(world) && p in world.procs && world.procs[p].phase == Opened(t, n, d) && world.owners == map[]
      modifies this
      ensures Inv(world) && world == Removed(old(world).(names := world.names, stages := world.stages), p, t, n)
      ensures world.names == old(world).names - {n}
    {
      EmptyStage(p, t, n, d);
      RemoveStageKeepsInv(world, p, t, n, d);
      world := RemoveStage(world, p, t, n, d);
    }

    /** One turn of the recovery loop. */
    method RecoverNext(p: Pid, todo: seq<Name>, removed: seq<Name>)
      requires Recovering(world, p, todo, removed) && todo != []
      modifies this
      ensures Recovering(world, p, todo[1..], removed + [todo[0]]) && world.objects == old(world).objects
      ensures world.names == old(world).names - {todo[0]}
    {
      var t := Recovery(todo, removed, []);
      ChooseKeepsInv(world, p, t);
      world := Choose(world, p, t);
      RecoverStage(p, t.(todo := todo[1..]), todo[0], world.names[todo[0]]);
    }

    /** Take coord.lock and list .staging. */
    method BeginRecovery(p: Pid) returns (todo: seq<Name>)
      requires Inv(world) && Quiet(world) && p !in world.procs
      modifies this
      ensures Inv(world) && p in world.procs && world.procs[p].phase == Choosing(Recovery(todo, [], []))
      ensures IsListing(todo, world.names) && |todo| == |world.names|
      ensures world == old(world).(procs := world.procs, coord := Some(p))
    {
      AfterKeepsInv(world, ArriveRecoverer(p));
      world := After(world, ArriveRecoverer(p));
      todo := List(world.names);
      EnterKeepsInv(world, p, todo);
      world := Enter(world, p, todo);
    }

    /** `recover`: with no live publisher it removes every stage, retains none and raises nothing. */
    method Recover(p: Pid) returns (removed: seq<Name>)
      requires Inv(world) && Quiet(world) && p !in world.procs
      modifies this
      ensures Inv(world) && Quiet(world) && p in world.procs
      ensures world.names == map[] && world.objects == old(world).objects
      ensures world.procs[p].phase == Reported(Recovery([], removed, []))
      ensures |removed| == |old(world).names| && forall n :: n in removed <==> n in old(world).names
    {
      ghost var names := world.names;
      var todo := BeginRecovery(p);
      removed := [];
      while todo != []
        invariant Recovering(world, p, todo, removed) && world.objects == old(world).objects
        invariant |removed| + |todo| == |names|
        invariant forall n :: n in names <==> n in removed || n in todo
        decreases |todo|
      {
        RecoverNext(p, todo, removed);
        removed, todo := removed + [todo[0]], todo[1..];
      }
      assert forall n :: n !in world.names;
      EndRecovery(p, removed);
    }

    method EndRecovery(p: Pid, removed: seq<Name>)
      requires Inv(world) && p in world.procs && world.procs[p].phase == Choosing(Recovery([], removed, []))
      modifies this
      ensures Inv(world) && p in world.procs && world.procs[p].phase == Reported(Recovery([], removed, []))
      ensures world == old(world).(procs := world.procs, coord := None)
    {
      ChooseKeepsInv(world, p, Recovery([], removed, []));
      world := Choose(world, p, Recovery([], removed, []));
    }

    /** `_write_all`: however little each `os.write` accepts, the whole payload is written. */
    method WriteAll(p: Pid)
      requires Inv(world) && p in world.procs && world.procs[p].phase.Filling?
      modifies this
      ensures Inv(world) && world == old(world).(files := world.files)
      ensures var f := world.procs[p].phase.file;
              f in world.files && world.files[f] == File(world.procs[p].payload, false)
    {
      var n, d, f := world.procs[p].phase.name, world.procs[p].phase.dir, world.procs[p].phase.file;
      ghost var w := world;
      assert ProcOk(w, w.procs[p]);
      while |world.files[f].bytes| < |world.procs[p].payload|
        invariant Inv(world) && world == w.(files := world.files) && f in world.files
        invariant !world.files[f].sealed && world.files[f].bytes <= world.procs[p].payload
        decreases |world.procs[p].payload| - |world.files[f].bytes|
      {
        var written :| 1 <= written <= |world.procs[p].payload| - |world.files[f].bytes|;
        FillKeepsInv(world, p, n, d, f, written);
        world := Write(world, p, f, written);
        assert ProcOk(world, world.procs[p]);
      }
    }

    /** The loop over drawn names: the first free one becomes a stage, and without
        one the publication raises and leaves nothing behind. */
    method DrawStage(p: Pid, draws: seq<Name>) returns (made: Option<Name>)
      requires Inv(world) && p in world.procs && world.procs[p].phase == Missing([]) && |draws| == DRAWS
      modifies this
      ensures Inv(world) && p in world.procs && (made.None? <==> AllTaken(draws, old(world).names))
      ensures made.None? ==> world == Fail(old(world), p, Exhausted)
      ensures made.Some? ==> IsFirstFree(made.value, draws, old(world).names)
                             && world == MakeStage(old(world), p, [], made.value)
    {
      ghost var w := world;
      made := None;
      var i := 0;
      while i < DRAWS && made.None?
        invariant 0 <= i <= DRAWS && Inv(world)
        invariant made.None? ==>
            (forall k :: 0 <= k < i ==> draws[k] in w.names)
            && (i < DRAWS ==> Drawing(w, world, p, draws[..i])) && (i == DRAWS ==> world == Fail(w, p, Exhausted))
        invariant made.Some? ==> IsFirstFree(made.value, draws, w.names) && world == MakeStage(w, p, [], made.value)
      {
        MakeStageKeepsInv(world, p, draws[..i], draws[i]);
        DrawnNext(w, world, p, draws, i);
        world := MakeStage(world, p, draws[..i], draws[i]);
        if world.procs[p].phase.HasStage? { made := Some(draws[i]); }
        i := i + 1;
      }
    }

    /** From an absent object to a locked stage. */
    method LockedStage(p: Pid, draws: seq<Name>) returns (made: Option<Name>)
      requires Inv(world) && p in world.procs && world.procs[p].phase == Missing([]) && |draws| == DRAWS
      modifies this
      ensures Inv(world) && p in world.procs && (made.None? <==> AllTaken(draws, old(world).names))
      ensures made.None? ==> world == Fail(old(world), p, Exhausted)
      ensures made.Some? ==>
          IsFirstFree(made.value, draws, old(world).names)
          && var w, d := old(world), old(world).nextDir;
             world == To(w.(names := w.names[made.value := d], stages := world.stages, owners := w.owners[d := p],
                            nextDir := d + 1), p, HasLock(made.value, d))
    {
      ghost var procs := world.procs;
      var d := world.nextDir;
      made := DrawStage(p, draws);
      if made.Some? {
        LockStage(p, made.value, d);
        assert world.procs == procs[p := procs[p].(phase := HasLock(made.value, d))];
      }
    }

    /** owner.lock in a fresh stage, and its lock. */
    method LockStage(p: Pid, name: Name, d: nat)
      requires Inv(world) && p in world.procs && world.procs[p].phase == HasStage(name, d)
      modifies this
      ensures Inv(world)
      ensures world == To(old(world).(stages := world.stages, owners := old(world).owners[d := p]), p, HasLock(name, d))
    {
      ghost var procs := world.procs;
      MakeOwnerKeepsInv(world, p, name, d);
      world := MakeOwner(world, p, name, d);
      LockOwnerKeepsInv(world, p, name, d);
      world := LockOwner(world, p, name, d);
      assert world.procs == procs[p := procs[p].(phase := HasLock(name, d))];
    }

    /** From a locked stage to an empty object.tmp, outside coord.lock. */
    method StagedFile(p: Pid, name: Name, d: nat)
      requires Inv(world) && p in world.procs && world.procs[p].phase == HasLock(name, d)
      modifies this
      ensures Inv(world) && p in world.procs && world.coord.None? && world.objects == old(world).objects
      ensures world.names == old(world).names && world.owners == old(world).owners
      ensures world.procs == old(world).procs[p := old(world).procs[p].(phase := Filling(name, d, old(world).nextFile))]
    {
      ghost var procs := world.procs;
      var f := world.nextFile;
      MakeFileKeepsInv(world, p, name, d);
      world := MakeFile(world, p, name, d);
      LeaveKeepsInv(world, p, name, d, f);
      world := Leave(world, p, name, d, f);
      assert world.procs == procs[p := procs[p].(phase := Filling(name, d, f))];
    }

    /** Seal the written file, link it under its digest, verify it, release the owner lock. */
    method SealAndLink(p: Pid, n: Name, d: nat, f: nat)
      requires Inv(world) && p in world.procs && world.procs[p].phase == Filling(n, d, f)
      requires f in world.files && world.files[f] == File(world.procs[p].payload, false)
      requires Hash(world.procs[p].payload) !in world.objects
      modifies this
      ensures Inv(world)
      ensures world.procs == old(world).procs[p := old(world).procs[p].(phase := Published(n, d))]
      ensures world.objects == old(world).objects[Hash(world.procs[p].payload) := f]
      ensures world.owners == old(world).owners - {d} && world.names == old(world).names && world.coord == old(world).coord
      ensures world.stages == old(world).stages
    {
      ghost var procs := world.procs;
      FillKeepsInv(world, p, n, d, f, 0);
      world := Seal(world, p, n, d, f);
      assert ProcOk(world, world.procs[p]);
      LinkKeepsInv(world, p, n, d, f);
      world := Link(world, p, n, d, f);
      VerifyAndRelease(p, n, d);
      assert world.procs == procs[p := procs[p].(phase := Published(n, d))];
    }

    method VerifyAndRelease(p: Pid, n: Name, d: nat)
      requires Inv(world) && p in world.procs && world.procs[p].phase == Linked(n, d)
      modifies this
      ensures Inv(world) && world == To(old(world).(owners := old(world).owners - {d}), p, Published(n, d))
    {
      ghost var procs := world.procs;
      VerifyKeepsInv(world, p, n, d);
      assert ProcOk(world, world.procs[p]) && ObjectOk(world, Hash(world.procs[p].payload));
      world := Verify(world, p, n, d);
      ReleaseKeepsInv(world, p, n, d);
      world := Release(world, p, n, d);
      assert world.procs == procs[p := procs[p].(phase := Published(n, d))];
    }

    /** `_cleanup_published_stage` with nobody else alive. */
    method CleanUp(p: Pid, n: Name, d: nat)
      requires Inv(world) && Quiet(world) && p in world.procs && world.procs[p].phase == Published(n, d)
      requires n in world.names
      modifies this
      ensures Inv(world) && Quiet(world) && world.objects == old(world).objects
      ensures world.procs == old(world).procs[p := old(world).procs[p].(phase := Returned)]
      ensures world.names == old(world).names - {n}
    {
      ghost var procs := world.procs;
      EnterKeepsInv(world, p, []);
      world := Enter(world, p, []);
      var t := Cleanup(n, d);
      ChooseKeepsInv(world, p, t);
      world := Choose(world, p, t);
      RecoverStage(p, t, n, world.names[n]);
      assert world.procs == procs[p := procs[p].(phase := Returned)];
    }

    /** Compare the digests, take coord.lock and look the digest up. */
    method FindObject(p: Pid, payload: Bytes, expected: Option<DigestText>)
      requires Inv(world) && Quiet(world) && p !in world.procs
      modifies this
      ensures Inv(world)
      ensures var ph := if !AsExpected(payload, expected) then Failed(Unexpected)
                        else if Hash(payload) in world.objects then Returned else Missing([]);
              world == old(world).(procs := old(world).procs[p := Proc(payload, expected, ph)],
                                   coord := if ph.Missing? then Some(p) else None)
    {
      AfterKeepsInv(world, ArrivePublisher(p, payload, expected));
      world := After(world, ArrivePublisher(p, payload, expected));
      if AsExpected(payload, expected) { LookUpObject(p); }
      assert world.procs[p].payload == payload;
    }

    method LookUpObject(p: Pid)
      requires Inv(world) && Quiet(world) && p in world.procs && world.procs[p].phase.Arriving?
      modifies this
      ensures Inv(world)
      ensures var ph := if Hash(old(world).procs[p].payload) in world.objects then Returned else Missing([]);
              world == old(world).(procs := old(world).procs[p := old(world).procs[p].(phase := ph)],
                                   coord := if ph.Missing? then Some(p) else None)
    {
      ghost var procs := world.procs;
      EnterKeepsInv(world, p, []);
      world := Enter(world, p, []);
      LookUpKeepsInv(world, p);
      var h := Hash(world.procs[p].payload);
      if h in world.objects { assert ObjectOk(world, h); }
      world := LookUp(world, p);
      assert world.procs == procs[p := procs[p].(phase := world.procs[p].phase)];
    }

    /** Stage, write, seal and link the payload. */
    method StoreObject(p: Pid, draws: seq<Name>) returns (made: Option<(Name, nat)>)
      requires Inv(world) && p in world.procs && world.procs[p].phase == Missing([]) && |draws| == DRAWS
      requires world.owners == map[] && world.coord == Some(p) && Hash(world.procs[p].payload) !in world.objects
      modifies this
      ensures Inv(world) && Quiet(world) && (made.None? <==> AllTaken(draws, old(world).names))
      ensures made.None? ==> world == Fail(old(world), p, Exhausted)
      ensures made.Some? ==>
          && IsFirstFree(made.value.0, draws, old(world).names)
          && world.names == old(world).names[made.value.0 := made.value.1]
          && world.procs == old(world).procs[p := old(world).procs[p].(phase := Published(made.value.0, made.value.1))]
          && world.objects == old(world).objects[Hash(old(world).procs[p].payload) := old(world).nextFile]
    {
      made := None;
      ghost var procs := world.procs;
      var d := world.nextDir;
      var name := LockedStage(p, draws);
      if name.Some? {
        made := Some((name.value, d));
        FillStage(p, name.value, d);
        assert world.procs == procs[p := procs[p].(phase := Published(name.value, d))];
      }
    }

    /** Write, seal and link the payload in a locked stage. */
    method FillStage(p: Pid, name: Name, d: nat)
      requires Inv(world) && p in world.procs && world.procs[p].phase == HasLock(name, d)
      requires world.owners == map[d := p] && Hash(world.procs[p].payload) !in world.objects
      modifies this
      ensures Inv(world) && Quiet(world) && world.names == old(world).names
      ensures world.procs == old(world).procs[p := old(world).procs[p].(phase := Published(name, d))]
      ensures world.objects == old(world).objects[Hash(old(world).procs[p].payload) := old(world).nextFile]
    {
      ghost var procs := world.procs;
      var f := world.nextFile;
      StagedFile(p, name, d);
      WriteAll(p);
      SealAndLink(p, name, d, f);
      assert world.procs == procs[p := procs[p].(phase := Published(name, d))];
    }

    /** Store the object under a free name and remove its stage, or raise. */
    method StoreAndCleanUp(p: Pid, draws: seq<Name>)
      requires Inv(world) && p in world.procs && world.procs[p].phase == Missing([]) && |draws| == DRAWS
      requires world.owners == map[] && world.coord == Some(p) && Hash(world.procs[p].payload) !in world.objects
      modifies this
      ensures Inv(world) && Quiet(world) && world.names == old(world).names
      ensures var w, taken := old(world), AllTaken(draws, old(world).names);
              && world.procs == w.procs[p := w.procs[p].(phase := if taken then Failed(Exhausted) else Returned)]
              && world.objects == (if taken then w.objects else w.objects[Hash(w.procs[p].payload) := w.nextFile])
              && (taken ==> world.stages == w.stages)
    {
      ghost var w := world;
      var made := StoreObject(p, draws);
      if made.Some? {
        CleanUp(p, made.value.0, made.value.1);
        assert world.names == w.names;
        assert world.procs == w.procs[p := w.procs[p].(phase := Returned)];
      }
    }

    /** `publish` by the only live process. If the caller expects another digest, or
        the object is absent and every drawn name is taken, it raises and stores
        nothing. Otherwise the object is stored, whether it was there before or
        not, and the stage is gone again. */
    method PublishObject(p: Pid, payload: Bytes, expected: Option<DigestText>, draws: seq<Name>)
      requires Inv(world) && Quiet(world) && p !in world.procs && |draws| == DRAWS
      modifies this
      ensures Inv(world) && Quiet(world) && world.names == old(world).names
      ensures world.procs == old(world).procs[p := Proc(payload, expected, Outcome(old(world), payload, expected, draws))]
      ensures world.procs[p].phase.Failed? ==> world.objects == old(world).objects && world.stages == old(world).stages
      ensures world.procs[p].phase.Returned? ==>
          && Hash(payload) in world.objects && ObjectOk(world, Hash(payload))
          && (forall h :: h in world.objects <==> h in old(world).objects || h == Hash(payload))
      ensures forall h :: h in old(world).objects ==> h in world.objects && world.objects[h] == old(world).objects[h]
    {
      ghost var w := world;
      FindObject(p, payload, expected);
      if world.procs[p].phase.Missing? {
        StoreAndCleanUp(p, draws);
        assert world.procs == w.procs[p := Proc(payload, expected, Outcome(w, payload, expected, draws))];
      }
      if world.procs[p].phase.Returned? { assert ObjectOk(world, Hash(payload)); }
    }
  }

  /** os.listdir. */
  method List(names: map<Name, nat>) returns (order: seq<Name>)
    ensures IsListing(order, names) && |order| == |names|
  {
    order := [];
    var todo := names.Keys;
    assert |names.Keys| == |names|;
    while todo != {}
      invariant todo <= names.Keys && |order| + |todo| == |names|
      invariant forall n :: n in names ==> n in order || n in todo
      invariant forall i :: 0 <= i < |order| ==> order[i] in names && order[i] !in todo
      invariant forall i, j :: 0 <= i < j < |order| ==> order[i] != order[j]
      decreases |todo|
    {
      var n :| n in todo;
      order := order + [n];
      todo := todo - {n};
    }
  }
}
