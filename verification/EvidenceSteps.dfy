/** The content-addressed evidence store as a concurrent step system: any number
    of publishers and recoverers, each a process that takes one system call at a
    time and may crash between any two of them. Directories and files are
    identified by inode; locks are advisory locks that the kernel drops when
    their holder dies. */
module EvidenceSteps {
  import opened Options

  type Byte = bv8
  type Bytes = seq<Byte>
  type Name = string
  type Pid = nat

  /** The digest of a payload. */
  datatype Hash = Hash(preimage: Bytes)

  /** What a caller may pass as the digest it expects. */
  datatype DigestText = Proper(digest: Hash) | Malformed(text: string)

  /** How many names a publisher draws for its stage. */
  const DRAWS: nat := 128

  /** A regular file; `sealed` is mode 0400, otherwise 0600. */
  datatype File = File(bytes: Bytes, sealed: bool)

  /** A staging directory: whether owner.lock is there, and the inode of object.tmp. */
  datatype Stage = Stage(owner: bool, tmp: Option<nat>)

  /** What a sweep over staging directories is for. */
  datatype Task =
    | Cleanup(made: Name, created: nat)
    | Recovery(todo: seq<Name>, removed: seq<Name>, retained: seq<Name>)

  datatype Reason = Unexpected | Exhausted | Divergent | Disappeared | SourceMissing | UnknownMembers | RemainedLocked

  /** Where a process stands. The first block is `publish`, the second `recover`
      and the cleanup after a publication. */
  datatype Phase =
    | Arriving
    | Entered
    | Missing(drawn: seq<Name>)
    | HasStage(name: Name, dir: nat)
    | HasOwner(name: Name, dir: nat)
    | HasLock(name: Name, dir: nat)
    | HasFile(name: Name, dir: nat, file: nat)
    | Filling(name: Name, dir: nat, file: nat)
    | Sealed(name: Name, dir: nat, file: nat)
    | Linked(name: Name, dir: nat)
    | Verified(name: Name, dir: nat)
    | Published(name: Name, dir: nat)
    | Returned
    | Waiting
    | Choosing(task: Task)
    | Opened(task: Task, name: Name, dir: nat)
    | Taken(task: Task, name: Name, dir: nat)
    | Emptied(task: Task, name: Name, dir: nat)
    | Bare(task: Task, name: Name, dir: nat)
    | Reported(task: Task)
    | Failed(reason: Reason)

  datatype Proc = Proc(payload: Bytes, expected: Option<DigestText>, phase: Phase)

  datatype World = World(
    files: map<nat, File>, stages: map<nat, Stage>, names: map<Name, nat>, objects: map<Hash, nat>,
    coord: Option<Pid>, owners: map<nat, Pid>, procs: map<Pid, Proc>, nextDir: nat, nextFile: nat)

  const EMPTY: World := World(map[], map[], map[], map[], None, map[], map[], 0, 0)

  datatype Action =
    | ArrivePublisher(pid: Pid, payload: Bytes, expected: Option<DigestText>)
    | ArriveRecoverer(pid: Pid)
    | Crash(pid: Pid)
    | Act(pid: Pid, name: Name, count: nat, order: seq<Name>)

  // ------------------------------------------------------------- one process

  predicate HoldsCoord(ph: Phase) {
    ph.Entered? || ph.Missing? || ph.HasStage? || ph.HasOwner? || ph.HasLock? || ph.HasFile?
    || ph.Choosing? || ph.Opened? || ph.Taken? || ph.Emptied? || ph.Bare?
  }

  /** The directory whose owner.lock the process holds. */
  function LockOf(ph: Phase): Option<nat> {
    match ph
    case HasLock(_, d) => Some(d)
    case HasFile(_, d, _) => Some(d)
    case Filling(_, d, _) => Some(d)
    case Sealed(_, d, _) => Some(d)
    case Linked(_, d) => Some(d)
    case Verified(_, d) => Some(d)
    case Taken(_, _, d) => Some(d)
    case Emptied(_, _, d) => Some(d)
    case _ => None
  }

  function TaskDir(t: Task): Option<nat> {
    if t.Cleanup? then Some(t.created) else None
  }

  /** The directory the process created and has not yet seen removed. */
  function CreatedBy(ph: Phase): Option<nat> {
    match ph
    case HasStage(_, d) => Some(d)
    case HasOwner(_, d) => Some(d)
    case HasLock(_, d) => Some(d)
    case HasFile(_, d, _) => Some(d)
    case Filling(_, d, _) => Some(d)
    case Sealed(_, d, _) => Some(d)
    case Linked(_, d) => Some(d)
    case Verified(_, d) => Some(d)
    case Published(_, d) => Some(d)
    case Choosing(t) => TaskDir(t)
    case Opened(t, _, _) => TaskDir(t)
    case Taken(t, _, _) => TaskDir(t)
    case Emptied(t, _, _) => TaskDir(t)
    case Bare(t, _, _) => TaskDir(t)
    case _ => None
  }

  function To(w: World, p: Pid, ph: Phase): World
    requires p in w.procs
  {
    w.(procs := w.procs[p := w.procs[p].(phase := ph)])
  }

  /** The owner locks other processes hold. */
  function HeldByOthers(owners: map<nat, Pid>, p: Pid): map<nat, Pid> {
    map d | d in owners && owners[d] != p :: owners[d]
  }

  /** The process lets go of every lock. */
  function Unlocked(w: World, p: Pid): World {
    w.(coord := if w.coord == Some(p) then None else w.coord, owners := HeldByOthers(w.owners, p))
  }

  function Fail(w: World, p: Pid, r: Reason): World
    requires p in w.procs
  {
    To(Unlocked(w, p), p, Failed(r))
  }

  /** `_verify_existing`: what is stored under the payload's digest, if anything. */
  function Existing(w: World, payload: Bytes): Option<File> {
    if Hash(payload) in w.objects && w.objects[Hash(payload)] in w.files
    then Some(w.files[w.objects[Hash(payload)]]) else None
  }

  /** The caller expects no digest, or the payload's own. */
  predicate AsExpected(payload: Bytes, expected: Option<DigestText>) {
    expected.Some? ==> expected.value == Proper(Hash(payload))
  }

  /** A publisher that has compared its digests, before it takes any lock. */
  function Publisher(payload: Bytes, expected: Option<DigestText>): Proc {
    Proc(payload, expected, if AsExpected(payload, expected) then Arriving else Failed(Unexpected))
  }

  const RECOVERER: Proc := Proc([], None, Waiting)

  // --------------------------------------------------------- publish, locked

  /** A directory listing, in some order. */
  predicate IsListing(order: seq<Name>, names: map<Name, nat>) {
    && (forall n :: n in names ==> n in order)
    && (forall i :: 0 <= i < |order| ==> order[i] in names)
    && (forall i, j :: 0 <= i < j < |order| ==> order[i] != order[j])
  }

  /** Waiting for coord.lock, then entering. */
  function Enter(w: World, p: Pid, order: seq<Name>): World
    requires p in w.procs
  {
    if w.coord.Some? then w
    else
      var w1 := w.(coord := Some(p));
      match w.procs[p].phase
      case Arriving => To(w1, p, Entered)
      case Published(name, dir) => To(w1, p, Choosing(Cleanup(name, dir)))
      case Waiting =>
        if IsListing(order, w.names) then To(w1, p, Choosing(Recovery(order, [], []))) else w
      case _ => w
  }

  /** The lookup under coord.lock: an existing object is returned at once. */
  function LookUp(w: World, p: Pid): World
    requires p in w.procs
  {
    var found := Existing(w, w.procs[p].payload);
    if found.None? then To(w, p, Missing([]))
    else if found.value == File(w.procs[p].payload, true) then To(w.(coord := None), p, Returned)
    else Fail(w, p, Divergent)
  }

  /** mkdir of a staging directory under the name just drawn. A name already
      there is drawn again, but not for ever. */
  function MakeStage(w: World, p: Pid, drawn: seq<Name>, name: Name): World
    requires p in w.procs
  {
    if name in w.names then
      (if |drawn| + 1 < DRAWS then To(w, p, Missing(drawn + [name])) else Fail(w, p, Exhausted))
    else To(w.(names := w.names[name := w.nextDir], stages := w.stages[w.nextDir := Stage(false, None)],
               nextDir := w.nextDir + 1), p, HasStage(name, w.nextDir))
  }

  function MakeOwner(w: World, p: Pid, n: Name, d: nat): World
    requires p in w.procs
  {
    To(w.(stages := w.stages[d := Stage(true, None)]), p, HasOwner(n, d))
  }

  function LockOwner(w: World, p: Pid, n: Name, d: nat): World
    requires p in w.procs
  {
    if d in w.owners then w else To(w.(owners := w.owners[d := p]), p, HasLock(n, d))
  }

  function MakeFile(w: World, p: Pid, n: Name, d: nat): World
    requires p in w.procs
  {
    To(w.(files := w.files[w.nextFile := File([], false)], stages := w.stages[d := Stage(true, Some(w.nextFile))],
          nextFile := w.nextFile + 1), p, HasFile(n, d, w.nextFile))
  }

  function Leave(w: World, p: Pid, n: Name, d: nat, f: nat): World
    requires p in w.procs
  {
    To(w.(coord := None), p, Filling(n, d, f))
  }

  /** The steps taken under coord.lock, up to leaving it. */
  function Prepare(w: World, p: Pid, name: Name): World
    requires p in w.procs
  {
    match w.procs[p].phase
    case Entered => LookUp(w, p)
    case Missing(drawn) => MakeStage(w, p, drawn, name)
    case HasStage(n, d) => MakeOwner(w, p, n, d)
    case HasOwner(n, d) => LockOwner(w, p, n, d)
    case HasLock(n, d) => MakeFile(w, p, n, d)
    case HasFile(n, d, f) => Leave(w, p, n, d, f)
    case _ => w
  }

  // ------------------------------------------------------ publish, unlocked

  /** One `os.write`, which accepts some of the remaining bytes. */
  function Write(w: World, p: Pid, f: nat, count: nat): World
    requires p in w.procs && f in w.files && |w.files[f].bytes| < |w.procs[p].payload|
  {
    var bytes, payload := w.files[f].bytes, w.procs[p].payload;
    var taken := if 1 <= count <= |payload| - |bytes| then count else 1;
    w.(files := w.files[f := File(bytes + payload[|bytes|..|bytes| + taken], false)])
  }

  /** Reopen, compare with the payload, chmod 0400. */
  function Seal(w: World, p: Pid, n: Name, d: nat, f: nat): World
    requires p in w.procs && f in w.files
  {
    if w.files[f].bytes != w.procs[p].payload then Fail(w, p, Divergent)
    else To(w.(files := w.files[f := File(w.files[f].bytes, true)]), p, Sealed(n, d, f))
  }

  function Fill(w: World, p: Pid, n: Name, d: nat, f: nat, count: nat): World
    requires p in w.procs
  {
    if f !in w.files then Fail(w, p, SourceMissing)
    else if |w.files[f].bytes| < |w.procs[p].payload| then Write(w, p, f, count)
    else Seal(w, p, n, d, f)
  }

  /** Reopen, rehash, and hard-link object.tmp under its digest unless the digest is taken. */
  function Link(w: World, p: Pid, n: Name, d: nat, f: nat): World
    requires p in w.procs
  {
    var payload := w.procs[p].payload;
    if d !in w.stages || w.stages[d].tmp != Some(f) || f !in w.files then Fail(w, p, SourceMissing)
    else if w.files[f] != File(payload, true) then Fail(w, p, Divergent)
    else if Hash(payload) in w.objects then To(w, p, Linked(n, d))
    else To(w.(objects := w.objects[Hash(payload) := f]), p, Linked(n, d))
  }

  function Verify(w: World, p: Pid, n: Name, d: nat): World
    requires p in w.procs
  {
    var found := Existing(w, w.procs[p].payload);
    if found.None? then Fail(w, p, Disappeared)
    else if found.value != File(w.procs[p].payload, true) then Fail(w, p, Divergent)
    else To(w, p, Verified(n, d))
  }

  function Release(w: World, p: Pid, n: Name, d: nat): World
    requires p in w.procs
  {
    To(w.(owners := w.owners - {d}), p, Published(n, d))
  }

  /** Filling, sealing and linking the staged object under its owner.lock only. */
  function Publish(w: World, p: Pid, count: nat): World
    requires p in w.procs
  {
    match w.procs[p].phase
    case Filling(n, d, f) => Fill(w, p, n, d, f, count)
    case Sealed(n, d, f) => Link(w, p, n, d, f)
    case Linked(n, d) => Verify(w, p, n, d)
    case Verified(n, d) => Release(w, p, n, d)
    case _ => w
  }

  // ------------------------------------------------------ sweeping one stage

  /** The stage is gone: the cleanup returns, the recovery goes on. */
  function Removed(w: World, p: Pid, t: Task, name: Name): World
    requires p in w.procs
  {
    match t
    case Cleanup(_, _) => To(w.(coord := None), p, Returned)
    case Recovery(todo, gone, kept) => To(w, p, Choosing(Recovery(todo, gone + [name], kept)))
  }

  /** The stage is locked: the cleanup fails, the recovery goes on. */
  function Retained(w: World, p: Pid, t: Task, name: Name): World
    requires p in w.procs
  {
    match t
    case Cleanup(_, _) => Fail(w, p, RemainedLocked)
    case Recovery(todo, gone, kept) => To(w, p, Choosing(Recovery(todo, gone, kept + [name])))
  }

  /** Opening the next stage to sweep. */
  function Choose(w: World, p: Pid, t: Task): World
    requires p in w.procs
  {
    match t
    case Cleanup(name, _) =>
      if name !in w.names then To(w.(coord := None), p, Returned)
      else To(w, p, Opened(t, name, w.names[name]))
    case Recovery(todo, gone, kept) =>
      if todo == [] then To(w.(coord := None), p, Reported(t))
      else if todo[0] !in w.names then Fail(w, p, Disappeared)
      else To(w, p, Opened(Recovery(todo[1..], gone, kept), todo[0], w.names[todo[0]]))
  }

  /** Listing the members and trying the owner lock. */
  function Inspect(w: World, p: Pid, t: Task, n: Name, d: nat): World
    requires p in w.procs
  {
    if d !in w.stages then Fail(w, p, Disappeared)
    else if w.stages[d] == Stage(false, None) then To(w, p, Bare(t, n, d))
    else if !w.stages[d].owner then Fail(w, p, UnknownMembers)
    else if d in w.owners then Retained(w, p, t, n)
    else To(w.(owners := w.owners[d := p]), p, Taken(t, n, d))
  }

  /** unlink of object.tmp, if it is there. */
  function UnlinkTmp(w: World, p: Pid, t: Task, n: Name, d: nat): World
    requires p in w.procs
  {
    To(w.(stages := w.stages[d := Stage(true, None)]), p, Emptied(t, n, d))
  }

  /** unlink of owner.lock; the lock on the unlinked file is out of everybody's reach. */
  function UnlinkOwner(w: World, p: Pid, t: Task, n: Name, d: nat): World
    requires p in w.procs
  {
    To(w.(stages := w.stages[d := Stage(false, None)], owners := w.owners - {d}), p, Bare(t, n, d))
  }

  function RemoveStage(w: World, p: Pid, t: Task, n: Name, d: nat): World
    requires p in w.procs
  {
    Removed(w.(names := w.names - {n}, stages := w.stages - {d}), p, t, n)
  }

  /** `_recover_stage_locked`, one call at a time. */
  function Sweep(w: World, p: Pid): World
    requires p in w.procs
  {
    match w.procs[p].phase
    case Choosing(t) => Choose(w, p, t)
    case Opened(t, n, d) => Inspect(w, p, t, n, d)
    case Taken(t, n, d) => UnlinkTmp(w, p, t, n, d)
    case Emptied(t, n, d) => UnlinkOwner(w, p, t, n, d)
    case Bare(t, n, d) => RemoveStage(w, p, t, n, d)
    case _ => w
  }

  // ------------------------------------------------------------ any action

  function After(w: World, a: Action): World {
    match a
    case ArrivePublisher(p, payload, expected) => if p in w.procs then w else w.(procs := w.procs[p := Publisher(payload, expected)])
    case ArriveRecoverer(p) => if p in w.procs then w else w.(procs := w.procs[p := RECOVERER])
    case Crash(p) => Unlocked(w, p).(procs := w.procs - {p})
    case Act(p, name, count, order) => if p in w.procs then Move(w, p, name, count, order) else w
  }

  function Move(w: World, p: Pid, name: Name, count: nat, order: seq<Name>): World
    requires p in w.procs
  {
    var ph := w.procs[p].phase;
    if ph.Arriving? || ph.Published? || ph.Waiting? then Enter(w, p, order)
    else if ph.Filling? || ph.Sealed? || ph.Linked? || ph.Verified? then Publish(w, p, count)
    else if ph.Choosing? || ph.Opened? || ph.Taken? || ph.Emptied? || ph.Bare? then Sweep(w, p)
    else Prepare(w, p, name)
  }

  /** The world after a history of actions. */
  function From(w: World, actions: seq<Action>): World
    decreases |actions|
  {
    if actions == [] then w else From(After(w, actions[0]), actions[1..])
  }

  function Run(actions: seq<Action>): World {
    From(EMPTY, actions)
  }
}
