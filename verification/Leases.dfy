/** Containers shared by several runtimes through lease files (`skill_exec.go`):
    any number of runtimes, each one sequential, with one step per file-system or
    container call. Locks are modelled as the files they are: opening a path
    yields an inode, `flock` excludes per inode, and a path can be unlinked under
    whoever has it open. Lock and lease files live in a files directory, which is
    the workspace itself or a temporary copy that a shell has made of it; such a
    copy is mirrored back when the shell ends. Containers are the same for all. */
module Leases {
  import opened Common

  /** The locks of a files directory. */
  datatype Key = CommandsLock | LeaseLock(name: string)

  /** What a files directory holds: lock paths, the inodes of those that have been
      opened, and lease files as pairs of container name and runtime, the
      runtime's number being its lease id. */
  datatype Dir = Dir(paths: set<Key>, inodes: map<Key, nat>, leases: set<(string, nat)>)

  /** The workspace's own directory; other numbers are temporary copies. */
  const HOME: nat := 0

  /** Ensuring happens under `commands.lock`, here its inode. */
  datatype Job = Ensure(lock: nat) | Release(rest: set<string>)

  /** How far the holder of a lease lock has come. */
  datatype Stage =
    | Acquired
    | Found      // ensure: the container is listed
    | Absent     // ensure: it is not
    | Ready      // ensure: taken to run, to be leased
    | Ensured    // ensure: lease registered
    | LeaseGone  // release: own lease file removed
    | Empty      // release: no lease file was left
    | Removed    // release: removal of the container reported no error
    | Unlinked   // release: lock file unlinked
    | Done

  datatype Phase =
    | Idle
    | Queued(dir: nat, lock: nat)                 // waits for commands.lock
    | Command(dir: nat, lock: nat)                // holds it
    | Executing(dir: nat, lock: nat, name: string)
    | Teardown(dir: nat, names: set<string>)
    | Waiting(dir: nat, name: string, inode: nat, job: Job)
    | Holding(dir: nat, name: string, inode: nat, job: Job, stage: Stage)

  /** A runtime: its position, and `containers`, `container` and `workspaceHint`
      of its `skillExecutor`. */
  datatype Proc = Proc(phase: Phase, held: set<string>, current: Option<string>, hint: nat)

  /** `owner` says who holds the flock on an inode. */
  datatype State = State(
    procs: map<nat, Proc>,
    containers: set<string>,
    dirs: map<nat, Dir>,
    owner: map<nat, nat>,
    nextInode: nat)

  /** What the call a runtime makes next does: succeed, fail without effect, take
      effect and still return an error, or, for a container command that exits
      with a failure, have no effect and return no error. */
  datatype Outcome = Succeeds | Fails | HalfDone | Silent

  datatype Action =
    | OpenCommand(r: nat, dir: nat)
    | OpenEnsure(r: nat, name: string)
    | Reuse(r: nat, name: string)
    | EndCommand(r: nat)
    | BeginTeardown(r: nat)
    | OpenRelease(r: nat, name: string)
    | SkipRelease(r: nat, name: string)
    | EndTeardown(r: nat)
    | Acquire(r: nat)
    | Advance(r: nat, outcome: Outcome)
    | Snapshot(copy: nat)
    | SyncBack(copy: nat)
    | Discard(copy: nat)

  function Initial(): State {
    State(map[], {}, map[], map[], 0)
  }

  function P(s: State, r: nat): Proc {
    if r in s.procs then s.procs[r] else Proc(Idle, {}, None, HOME)
  }

  /** A directory that is not there is made, empty, by whoever opens a lock in it. */
  function D(s: State, dir: nat): Dir {
    if dir in s.dirs then s.dirs[dir] else Dir({}, map[], {})
  }

  function At(s: State, r: nat, phase: Phase): State {
    s.(procs := s.procs[r := P(s, r).(phase := phase)])
  }

  function WithDir(s: State, dir: nat, d: Dir): State {
    s.(dirs := s.dirs[dir := d])
  }

  predicate Leased(d: Dir, name: string) {
    exists l :: l in d.leases && l.0 == name
  }

  predicate ByRuntime(a: Action) {
    !a.Snapshot? && !a.SyncBack? && !a.Discard?
  }

  /** The next call goes to the container runtime. */
  predicate ContainerCall(h: Phase) {
    h.Holding? && h.stage in (if h.job.Ensure? then {Acquired, Found, Absent} else {Empty})
  }

  predicate Enabled(s: State, a: Action) {
    match a
    case OpenCommand(r, dir) => P(s, r).phase.Idle? && (dir == HOME || dir in s.dirs)
    case OpenEnsure(r, name) => P(s, r).phase.Command? && P(s, r).current != Some(name)
    case Reuse(r, name) => P(s, r).phase.Command? && P(s, r).current == Some(name)
    case EndCommand(r) => P(s, r).phase.Command? || P(s, r).phase.Executing?
    case BeginTeardown(r) => P(s, r).phase.Idle?
    case OpenRelease(r, name) => P(s, r).phase.Teardown? && name in P(s, r).phase.names
    case SkipRelease(r, name) => P(s, r).phase.Teardown? && name in P(s, r).phase.names
    case EndTeardown(r) => P(s, r).phase.Teardown? && P(s, r).phase.names == {}
    case Acquire(r) =>
      || (P(s, r).phase.Queued? && P(s, r).phase.lock !in s.owner)
      || (P(s, r).phase.Waiting? && P(s, r).phase.inode !in s.owner)
    case Advance(r, outcome) => P(s, r).phase.Holding? && (outcome.Silent? ==> ContainerCall(P(s, r).phase))
    case Snapshot(copy) => copy != HOME && copy !in s.dirs
    case SyncBack(copy) => copy != HOME && copy in s.dirs
    case Discard(copy) => copy != HOME && copy in s.dirs
  }

  /** `OpenFile` with O_CREATE: the path exists and has an inode. */
  function Opened(s: State, dir: nat, key: Key): State {
    var d := D(s, dir);
    if key in d.inodes then WithDir(s, dir, d.(paths := d.paths + {key}))
    else WithDir(s, dir, d.(paths := d.paths + {key}, inodes := d.inodes[key := s.nextInode])).(nextInode := s.nextInode + 1)
  }

  function InodeOf(s: State, dir: nat, key: Key): nat {
    if key in D(s, dir).inodes then D(s, dir).inodes[key] else s.nextInode
  }

  function OpenLease(s: State, r: nat, dir: nat, name: string, job: Job): State {
    At(Opened(s, dir, LeaseLock(name)), r, Waiting(dir, name, InodeOf(s, dir, LeaseLock(name)), job))
  }

  /** The holder lets go of the lease lock. */
  predicate AtEnd(h: Phase) {
    h.Holding? && (h.stage == Done || h.stage == Unlinked || h.stage == Ensured)
  }

  function AfterUnlock(h: Phase): Phase
    requires AtEnd(h)
  {
    if h.job.Release? then Teardown(h.dir, h.job.rest)
    else if h.stage == Ensured then Executing(h.dir, h.job.lock, h.name)
    else Command(h.dir, h.job.lock)
  }

  function Unlock(s: State, r: nat): State
    requires AtEnd(P(s, r).phase)
  {
    At(s.(owner := s.owner - {P(s, r).phase.inode}), r, AfterUnlock(P(s, r).phase))
  }

  function Granted(s: State, r: nat): State
    requires P(s, r).phase.Queued? || P(s, r).phase.Waiting?
  {
    var w := P(s, r).phase;
    if w.Queued? then At(s.(owner := s.owner[w.lock := r]), r, Command(w.dir, w.lock))
    else At(s.(owner := s.owner[w.inode := r]), r, Holding(w.dir, w.name, w.inode, w.job, Acquired))
  }

  /** Mirroring a copy back: paths and lease files become those of the copy, and
      lock files that stay keep their inodes. */
  function Mirrored(home: Dir, copy: Dir): Dir {
    Dir(copy.paths, map k | k in home.inodes && k in copy.paths :: home.inodes[k], copy.leases)
  }

  function Step(s: State, a: Action): State
    requires Enabled(s, a)
  {
    match a
    case OpenCommand(r, dir) => At(Opened(s, dir, CommandsLock), r, Queued(dir, InodeOf(s, dir, CommandsLock)))
    case OpenEnsure(r, name) => OpenLease(s, r, P(s, r).phase.dir, name, Ensure(P(s, r).phase.lock))
    case Reuse(r, name) => At(s, r, Executing(P(s, r).phase.dir, P(s, r).phase.lock, name))
    case EndCommand(r) => At(s.(owner := s.owner - {P(s, r).phase.lock}), r, Idle)
    case BeginTeardown(r) =>
      s.(procs := s.procs[r := Proc(Teardown(P(s, r).hint, P(s, r).held), {}, None, P(s, r).hint)])
    case OpenRelease(r, name) => OpenLease(s, r, P(s, r).phase.dir, name, Release(P(s, r).phase.names - {name}))
    case SkipRelease(r, name) => At(s, r, Teardown(P(s, r).phase.dir, P(s, r).phase.names - {name}))
    case EndTeardown(r) => At(s, r, Idle)
    case Acquire(r) => Granted(s, r)
    case Advance(r, outcome) =>
      var h := P(s, r).phase;
      if AtEnd(h) then Unlock(s, r)
      else if h.job.Ensure? then EnsureStep(s, r, h, outcome)
      else ReleaseStep(s, r, h, outcome)
    case Snapshot(copy) => WithDir(s, copy, Dir(D(s, HOME).paths, map[], D(s, HOME).leases))
    case SyncBack(copy) =>
      var t := WithDir(s, HOME, Mirrored(D(s, HOME), D(s, copy)));
      t.(dirs := t.dirs - {copy})
    case Discard(copy) => s.(dirs := s.dirs - {copy})
  }

  function Moved(s: State, r: nat, h: Phase, stage: Stage): State
    requires h.Holding?
  {
    At(s, r, h.(stage := stage))
  }

  /** The locked part of `ensureSkillCommandsContainerLocked`. A listing that
      exits with a failure reads as an empty list, and a failed creation as a
      created container. */
  function EnsureStep(s: State, r: nat, h: Phase, outcome: Outcome): State
    requires h.Holding?
  {
    match h.stage
    case Acquired =>
      if outcome.Fails? || outcome.HalfDone? then Moved(s, r, h, Done)
      else Moved(s, r, h, if outcome.Succeeds? && h.name in s.containers then Found else Absent)
    case Found => Moved(s, r, h, if outcome.Succeeds? || outcome.Silent? then Ready else Done)
    case Absent =>
      var t := if outcome.Succeeds? || outcome.HalfDone? then s.(containers := s.containers + {h.name}) else s;
      Moved(t, r, h, if outcome.Succeeds? || outcome.Silent? then Ready else Done)
    case Ready =>
      var d := D(s, h.dir);
      var leased := WithDir(s, h.dir, d.(leases := d.leases + {(h.name, r)}));
      if outcome.Fails? then Moved(s, r, h, Done)
      else if outcome.HalfDone? then Moved(leased, r, h, Done)
      else leased.(procs := s.procs[r := Proc(h.(stage := Ensured), P(s, r).held + {h.name}, Some(h.name), h.dir)])
    case _ => Moved(s, r, h, Done)
  }

  /** The locked part of `releaseSkillContainerLease`. */
  function ReleaseStep(s: State, r: nat, h: Phase, outcome: Outcome): State
    requires h.Holding?
  {
    var d := D(s, h.dir);
    match h.stage
    case Acquired =>
      if outcome.Fails? then Moved(s, r, h, Done)
      else Moved(WithDir(s, h.dir, d.(leases := d.leases - {(h.name, r)})), r, h,
                 if outcome.Succeeds? then LeaseGone else Done)
    case LeaseGone => Moved(s, r, h, if !outcome.Succeeds? || Leased(d, h.name) then Done else Empty)
    case Empty =>
      var t := if outcome.Succeeds? || outcome.HalfDone? then s.(containers := s.containers - {h.name}) else s;
      Moved(t, r, h, if outcome.Succeeds? || outcome.Silent? then Removed else Done)
    case Removed =>
      if outcome.Fails? then Moved(s, r, h, Done)
      else Moved(WithDir(s, h.dir, d.(paths := d.paths - {LeaseLock(h.name)}, inodes := d.inodes - {LeaseLock(h.name)})),
                 r, h, Unlinked)
    case _ => Moved(s, r, h, Done)
  }

  // ------------------------------------------------------------------ claims, locks and runs

  predicate Ensuring(phase: Phase) {
    (phase.Waiting? || phase.Holding?) && phase.job.Ensure?
  }

  predicate Releasing(phase: Phase) {
    phase.Teardown? || ((phase.Waiting? || phase.Holding?) && phase.job.Release?)
  }

  /** The phases that lie inside `commands.lock`. */
  predicate InCommand(phase: Phase) {
    phase.Command? || phase.Executing? || Ensuring(phase)
  }

  /** The commands lock a runtime holds or waits for. */
  function CommandLock(phase: Phase): Option<nat> {
    match phase
    case Queued(_, lock) => Some(lock)
    case Command(_, lock) => Some(lock)
    case Executing(_, lock, _) => Some(lock)
    case Waiting(_, _, _, job) => if job.Ensure? then Some(job.lock) else None
    case Holding(_, _, _, job, _) => if job.Ensure? then Some(job.lock) else None
    case _ => None
  }

  /** The names a releasing runtime has still to release. */
  function ToRelease(phase: Phase): set<string> {
    match phase
    case Teardown(_, names) => names
    case Waiting(_, name, _, job) => if job.Release? then job.rest + {name} else {}
    case Holding(_, name, _, job, stage) =>
      if job.Release? then job.rest + (if stage == Acquired then {name} else {}) else {}
    case _ => {}
  }

  /** The containers a runtime counts on or has still to release. */
  function Claims(p: Proc): set<string> {
    p.held + ToRelease(p.phase)
  }

  ghost predicate NoClaims(s: State, name: string) {
    forall r :: r in s.procs ==> name !in Claims(s.procs[r])
  }

  /** A runtime that acts on a container or waits to. */
  predicate Uses(phase: Phase, name: string) {
    (phase.Waiting? || (phase.Holding? && phase.stage != Unlinked)) && phase.name == name
  }

  predicate Locks(phase: Phase, name: string) {
    phase.Holding? && phase.stage != Unlinked && phase.name == name
  }

  /** No other runtime claims the container, acts on it or waits to. */
  ghost predicate Alone(s: State, r: nat, name: string) {
    forall q :: q in s.procs && q != r ==> name !in Claims(s.procs[q]) && !Uses(s.procs[q].phase, name)
  }

  predicate OnPath(s: State, key: Key, inode: nat) {
    key in D(s, HOME).inodes && D(s, HOME).inodes[key] == inode
  }

  /** The copy has the lease file of every claim, the commands lock if anyone holds
      or awaits it, and the lock of every container in use, except where the one
      that ensures the container is alone with it. */
  ghost predicate Covers(s: State, copy: Dir) {
    forall r :: r in s.procs ==>
      var p := s.procs[r];
      && (forall n :: n in Claims(p) ==> (n, r) in copy.leases)
      && (CommandLock(p.phase).Some? ==> CommandsLock in copy.paths)
      && (forall n :: Uses(p.phase, n) ==> LeaseLock(n) in copy.paths || (Ensuring(p.phase) && Alone(s, r, n)))
  }

  /** Commands run in the workspace itself, and what is mirrored back covers it. */
  ghost predicate Orderly(s: State, a: Action) {
    && (a.OpenCommand? ==> a.dir == HOME)
    && (a.SyncBack? ==> Covers(s, D(s, a.copy)))
  }

  /** The creation of a container that has no effect and reports no error. */
  predicate SilentCreation(s: State, a: Action) {
    && a.Advance? && a.outcome.Silent? && P(s, a.r).phase.Holding?
    && P(s, a.r).phase.job.Ensure? && P(s, a.r).phase.stage == Absent && P(s, a.r).phase.name !in s.containers
  }

  /** A run: the states it passes through and the actions between them. */
  ghost predicate IsRun(states: seq<State>, acts: seq<Action>) {
    && |states| == |acts| + 1
    && forall i {:trigger acts[i]} :: 0 <= i < |acts| ==> Enabled(states[i], acts[i]) && states[i + 1] == Step(states[i], acts[i])
  }

  ghost predicate OrderlyRun(states: seq<State>, acts: seq<Action>)
    requires IsRun(states, acts)
  {
    forall i {:trigger acts[i]} :: 0 <= i < |acts| ==> Orderly(states[i], acts[i])
  }

  /** No creation failed silently. */
  ghost predicate LoudRun(states: seq<State>, acts: seq<Action>)
    requires IsRun(states, acts)
  {
    forall i {:trigger acts[i]} :: 0 <= i < |acts| ==> !SilentCreation(states[i], acts[i])
  }

  /** A run without silently failing creations leads from s to t, an orderly one if asked. */
  ghost predicate Runs(s: State, t: State, orderly: bool) {
    exists states: seq<State>, acts: seq<Action> ::
      && IsRun(states, acts) && LoudRun(states, acts) && (orderly ==> OrderlyRun(states, acts))
      && states[0] == s && states[|acts|] == t
  }

  // ------------------------------------------------------------------ invariant

  predicate AtHome(p: Proc) {
    p.hint == HOME && (p.phase.Idle? || p.phase.dir == HOME)
  }

  ghost predicate LockFits(s: State, r: nat, phase: Phase) {
    && (CommandLock(phase).Some? ==> OnPath(s, CommandsLock, CommandLock(phase).value))
    && (InCommand(phase) ==> CommandLock(phase).value in s.owner && s.owner[CommandLock(phase).value] == r)
    && (phase.Holding? ==> phase.inode in s.owner && s.owner[phase.inode] == r)
    && (phase.Waiting? || phase.Holding? ==> phase.inode < s.nextInode)
    && (Ensuring(phase) ==> phase.inode != phase.job.lock)
    && (forall n :: Uses(phase, n) ==>
          OnPath(s, LeaseLock(n), phase.inode) || (Ensuring(phase) && Alone(s, r, n)))
  }

  /** Different locks are different files, all older than the next inode. */
  ghost predicate InodesAgree(home: Dir, nextInode: nat) {
    && (forall j, k :: j in home.inodes && k in home.inodes && home.inodes[j] == home.inodes[k] ==> j == k)
    && (forall k :: k in home.inodes ==> home.inodes[k] < nextInode && k in home.paths)
  }

  ghost predicate FilesAgree(s: State) {
    && InodesAgree(D(s, HOME), s.nextInode)
    && (forall i :: i in s.owner ==> i < s.nextInode)
  }

  /** Every claim has its lease file. */
  ghost predicate LeasesFit(s: State, r: nat, p: Proc) {
    forall n :: n in Claims(p) ==> (n, r) in D(s, HOME).leases
  }

  ghost predicate PhaseFits(s: State, p: Proc) {
    && AtHome(p)
    && (Releasing(p.phase) ==> p.held == {})
    && (p.current.Some? ==> p.current.value in p.held)
    && (p.phase.Executing? ==> p.phase.name in p.held)
    && (p.phase.Waiting? && p.phase.job.Release? ==> p.phase.name !in p.phase.job.rest)
    && (p.phase.Holding? ==> StageFits(s, p))
  }

  ghost predicate StageFits(s: State, p: Proc)
    requires p.phase.Holding?
  {
    var h := p.phase;
    if h.job.Ensure? then
      && h.stage in {Acquired, Found, Absent, Ready, Ensured, Done}
      && (h.stage == Ensured ==> h.name in p.held)
    else
      && h.name !in h.job.rest
      && h.stage !in {Found, Absent, Ready, Ensured}
      && (h.stage == Empty || h.stage == Removed ==> NoClaims(s, h.name))
  }

  ghost predicate ProcFits(s: State, r: nat, p: Proc) {
    LockFits(s, r, p.phase) && LeasesFit(s, r, p) && PhaseFits(s, p)
  }

  ghost predicate Inv(s: State) {
    FilesAgree(s) && forall r :: r in s.procs ==> ProcFits(s, r, s.procs[r])
  }

  /** Every container a runtime counts on exists, and so does one it has found or created. */
  ghost predicate Real(s: State) {
    && (forall r, n :: r in s.procs && n in s.procs[r].held ==> n in s.containers)
    && (forall r :: r in s.procs ==> RealStage(s, s.procs[r].phase))
  }

  predicate RealStage(s: State, h: Phase) {
    Ensuring(h) && h.Holding? && (h.stage == Found || h.stage == Ready) ==> h.name in s.containers
  }

  /** Two runtimes never act on one container at once, though one of them may hold
      a lock file that the path no longer names. */
  lemma LockExcludes(s: State, q: nat, r: nat, name: string)
    requires Inv(s) && q in s.procs && r in s.procs
    requires Locks(s.procs[q].phase, name) && Locks(s.procs[r].phase, name)
    ensures q == r
  {
    assert LockFits(s, q, s.procs[q].phase) && LockFits(s, r, s.procs[r].phase);
    assert Uses(s.procs[q].phase, name) && Uses(s.procs[r].phase, name);
  }

  lemma OneInCommand(s: State, q: nat, r: nat)
    requires Inv(s) && q in s.procs && r in s.procs
    requires InCommand(s.procs[q].phase) && InCommand(s.procs[r].phase)
    ensures q == r
  {
    assert LockFits(s, q, s.procs[q].phase) && LockFits(s, r, s.procs[r].phase);
  }

  // ------------------------------------------------------------------ what a step of one runtime leaves alone

  lemma OnlyHolderMoves(s: State, r: nat, outcome: Outcome)
    requires Enabled(s, Advance(r, outcome))
    ensures var t := Step(s, Advance(r, outcome));
            t.procs == s.procs[r := P(t, r)]
  {
    var h := P(s, r).phase;
    if !AtEnd(h) {
      if h.job.Ensure? {
        EnsureMovesOne(s, r, h, outcome);
      } else {
        ReleaseMovesOne(s, r, h, outcome);
      }
    }
  }

  lemma EnsureMovesOne(s: State, r: nat, h: Phase, outcome: Outcome)
    requires h.Holding?
    ensures var t := EnsureStep(s, r, h, outcome); t.procs == s.procs[r := P(t, r)]
  {
  }

  lemma ReleaseMovesOne(s: State, r: nat, h: Phase, outcome: Outcome)
    requires h.Holding?
    ensures var t := ReleaseStep(s, r, h, outcome); t.procs == s.procs[r := P(t, r)]
  {
  }

  lemma OnlyMoverMoves(s: State, a: Action)
    requires Enabled(s, a) && ByRuntime(a)
    ensures Step(s, a).procs == s.procs[a.r := P(Step(s, a), a.r)]
  {
    if a.Advance? {
      OnlyHolderMoves(s, a.r, a.outcome);
    }
  }

  lemma Fits(s: State, r: nat)
    requires Inv(s)
    ensures AtHome(P(s, r)) && (r in s.procs ==> ProcFits(s, r, s.procs[r]))
  {
  }

  predicate Unlinking(phase: Phase, name: string) {
    phase.Holding? && phase.job.Release? && phase.stage == Removed && phase.name == name
  }

  /** Flocks of others, inodes of paths and leases of others stay, except that a
      releaser may unlink the lock of the container it has removed. */
  ghost predicate HomeKept(s: State, t: State, r: nat) {
    && s.nextInode <= t.nextInode
    && (forall i :: i in s.owner && s.owner[i] != r ==> i in t.owner && t.owner[i] == s.owner[i])
    && (forall k :: k in D(s, HOME).inodes && !(k.LeaseLock? && Unlinking(P(s, r).phase, k.name)) ==>
          k in D(t, HOME).inodes && D(t, HOME).inodes[k] == D(s, HOME).inodes[k])
    && (forall l :: l in D(s, HOME).leases && l.1 != r ==> l in D(t, HOME).leases)
  }

  lemma OpenedKeeps(s: State, r: nat, key: Key, phase: Phase)
    ensures HomeKept(s, At(Opened(s, HOME, key), r, phase), r)
  {
  }

  lemma EnsureKeeps(s: State, r: nat, outcome: Outcome)
    requires P(s, r).phase.Holding?
    ensures HomeKept(s, EnsureStep(s, r, P(s, r).phase, outcome), r)
  {
  }

  lemma ReleaseKeeps(s: State, r: nat, outcome: Outcome)
    requires P(s, r).phase.Holding? && P(s, r).phase.job.Release?
    ensures HomeKept(s, ReleaseStep(s, r, P(s, r).phase, outcome), r)
  {
  }

  lemma StepKeeps(s: State, a: Action)
    requires Inv(s) && Enabled(s, a) && ByRuntime(a) && Orderly(s, a)
    ensures HomeKept(s, Step(s, a), a.r)
  {
    Fits(s, a.r);
    match a
    case OpenCommand(r, dir) => OpenedKeeps(s, r, CommandsLock, Queued(dir, InodeOf(s, dir, CommandsLock)));
    case OpenEnsure(r, name) =>
      OpenedKeeps(s, r, LeaseLock(name), P(Step(s, a), r).phase);
    case OpenRelease(r, name) =>
      OpenedKeeps(s, r, LeaseLock(name), P(Step(s, a), r).phase);
    case Advance(r, outcome) =>
      if !AtEnd(P(s, r).phase) {
        if P(s, r).phase.job.Ensure? {
          EnsureKeeps(s, r, outcome);
        } else {
          ReleaseKeeps(s, r, outcome);
        }
      }
    case _ =>
  }

  lemma AdvanceFootprint(s: State, r: nat, outcome: Outcome, name: string)
    requires Enabled(s, Advance(r, outcome))
    ensures var t := Step(s, Advance(r, outcome));
            && (name in Claims(P(t, r)) ==> name in Claims(P(s, r)) || Locks(P(s, r).phase, name))
            && (Uses(P(t, r).phase, name) ==> Uses(P(s, r).phase, name))
  {
  }

  /** New claims are on what the runtime had locked, and it newly uses only what it
      claimed or is about to ensure. */
  lemma Footprint(s: State, a: Action, name: string)
    requires Enabled(s, a) && ByRuntime(a)
    ensures name in Claims(P(Step(s, a), a.r)) ==> name in Claims(P(s, a.r)) || Locks(P(s, a.r).phase, name)
    ensures Uses(P(Step(s, a), a.r).phase, name) ==>
              Uses(P(s, a.r).phase, name) || name in Claims(P(s, a.r)) || a == OpenEnsure(a.r, name)
  {
    if a.Advance? {
      AdvanceFootprint(s, a.r, a.outcome, name);
    }
  }

  lemma NoClaimsStays(s: State, a: Action, q: nat, name: string)
    requires Inv(s) && Enabled(s, a) && ByRuntime(a) && q in s.procs && q != a.r
    requires NoClaims(s, name) && Locks(s.procs[q].phase, name)
    ensures NoClaims(Step(s, a), name)
  {
    OnlyMoverMoves(s, a);
    Footprint(s, a, name);
    if Locks(P(s, a.r).phase, name) {
      LockExcludes(s, q, a.r, name);
    }
  }

  lemma AloneStays(s: State, a: Action, q: nat, name: string)
    requires Inv(s) && Enabled(s, a) && ByRuntime(a) && q in s.procs && q != a.r
    requires Ensuring(s.procs[q].phase) && Alone(s, q, name)
    ensures Alone(Step(s, a), q, name)
  {
    OnlyMoverMoves(s, a);
    Footprint(s, a, name);
    if a.OpenEnsure? {
      OneInCommand(s, q, a.r);
    }
  }

  /** When the lock of a container is unlinked, nobody releases that container, so
      whoever ensures it is alone. */
  lemma UnlinkFindsNoReleaser(s: State, r: nat, q: nat, name: string)
    requires Inv(s) && r in s.procs && Unlinking(s.procs[r].phase, name) && q in s.procs && q != r
    ensures name !in Claims(s.procs[q])
    ensures Uses(s.procs[q].phase, name) ==> Ensuring(s.procs[q].phase)
  {
    Fits(s, r);
    Fits(s, q);
    if Locks(s.procs[q].phase, name) {
      LockExcludes(s, q, r, name);
    }
  }

  /** The unlinking runtime itself no longer has to do with the container. */
  lemma UnlinkerIsDone(s: State, a: Action, name: string)
    requires Inv(s) && Enabled(s, a) && a.Advance? && Unlinking(P(s, a.r).phase, name)
    requires LeaseLock(name) !in D(Step(s, a), HOME).inodes
    ensures name !in Claims(P(s, a.r)) && name !in Claims(P(Step(s, a), a.r)) && !Uses(P(Step(s, a), a.r).phase, name)
  {
    Fits(s, a.r);
    assert Uses(P(s, a.r).phase, name);
  }

  lemma UnlinkLeavesAlone(s: State, a: Action, q: nat, name: string)
    requires Inv(s) && Enabled(s, a) && a.Advance? && Unlinking(P(s, a.r).phase, name)
    requires q in s.procs && q != a.r && Ensuring(s.procs[q].phase) && Uses(s.procs[q].phase, name)
    requires LeaseLock(name) !in D(Step(s, a), HOME).inodes
    ensures Alone(Step(s, a), q, name)
  {
    OnlyMoverMoves(s, a);
    UnlinkerIsDone(s, a, name);
    forall x | x in s.procs && x != q && x != a.r ensures name !in Claims(s.procs[x]) && !Uses(s.procs[x].phase, name) {
      UnlinkFindsNoReleaser(s, a.r, x, name);
      if Uses(s.procs[x].phase, name) {
        OneInCommand(s, q, x);
      }
    }
  }

  lemma OthersUse(s: State, a: Action, q: nat, name: string)
    requires Inv(s) && Enabled(s, a) && ByRuntime(a) && Orderly(s, a) && q in s.procs && q != a.r
    requires Uses(s.procs[q].phase, name)
    ensures var h := s.procs[q].phase;
            OnPath(Step(s, a), LeaseLock(name), h.inode) || (Ensuring(h) && Alone(Step(s, a), q, name))
  {
    var h := s.procs[q].phase;
    Fits(s, q);
    StepKeeps(s, a);
    if Ensuring(h) && Alone(s, q, name) {
      AloneStays(s, a, q, name);
    } else if Unlinking(P(s, a.r).phase, name) {
      UnlinkFindsNoReleaser(s, a.r, q, name);
      if LeaseLock(name) !in D(Step(s, a), HOME).inodes {
        UnlinkLeavesAlone(s, a, q, name);
      } else {
        UnlinkKeepsInode(s, a, name);
      }
    }
  }

  /** A path that survives an unlinking step keeps its inode. */
  lemma UnlinkKeepsInode(s: State, a: Action, name: string)
    requires Inv(s) && Enabled(s, a) && ByRuntime(a) && Unlinking(P(s, a.r).phase, name)
    requires LeaseLock(name) in D(s, HOME).inodes && LeaseLock(name) in D(Step(s, a), HOME).inodes
    ensures D(Step(s, a), HOME).inodes[LeaseLock(name)] == D(s, HOME).inodes[LeaseLock(name)]
  {
    Fits(s, a.r);
  }

  lemma OthersLockFits(s: State, a: Action, q: nat)
    requires Inv(s) && Enabled(s, a) && ByRuntime(a) && Orderly(s, a) && q in s.procs && q != a.r
    ensures LockFits(Step(s, a), q, s.procs[q].phase)
  {
    var h := s.procs[q].phase;
    Fits(s, q);
    StepKeeps(s, a);
    forall n | Uses(h, n)
      ensures OnPath(Step(s, a), LeaseLock(n), h.inode) || (Ensuring(h) && Alone(Step(s, a), q, n))
    {
      OthersUse(s, a, q, n);
    }
  }

  lemma OthersFit(s: State, a: Action, q: nat)
    requires Inv(s) && Enabled(s, a) && ByRuntime(a) && Orderly(s, a) && q in s.procs && q != a.r
    ensures ProcFits(Step(s, a), q, s.procs[q])
  {
    Fits(s, q);
    OthersLockFits(s, a, q);
    StepKeeps(s, a);
    var h := s.procs[q].phase;
    if h.Holding? && h.job.Release? && (h.stage == Empty || h.stage == Removed) {
      NoClaimsStays(s, a, q, h.name);
    }
  }

  // ------------------------------------------------------------------ the runtime that moves

  lemma OpenLeaseFits(s: State, r: nat, name: string, job: Job)
    requires Inv(s) && r in s.procs && (job.Release? ==> name !in job.rest && Releasing(s.procs[r].phase))
    requires job.Release? ==> job.rest + {name} <= ToRelease(s.procs[r].phase)
    requires job.Ensure? ==> InCommand(s.procs[r].phase) && CommandLock(s.procs[r].phase) == Some(job.lock)
    ensures var t := OpenLease(s, r, HOME, name, job);
            ProcFits(t, r, P(t, r)) && FilesAgree(t)
  {
    Fits(s, r);
  }

  lemma OpenCommandFits(s: State, r: nat)
    requires Inv(s) && Enabled(s, OpenCommand(r, HOME))
    ensures var t := Step(s, OpenCommand(r, HOME));
            ProcFits(t, r, P(t, r)) && FilesAgree(t)
  {
    Fits(s, r);
  }

  lemma AcquireFits(s: State, r: nat)
    requires Inv(s) && Enabled(s, Acquire(r))
    ensures var t := Step(s, Acquire(r));
            ProcFits(t, r, P(t, r)) && FilesAgree(t)
  {
    var t := Step(s, Acquire(r));
    Fits(s, r);
    AloneUnmoved(s, t, r);
    assert D(t, HOME) == D(s, HOME);
  }

  /** Alone speaks of the other runtimes only. */
  lemma AloneUnmoved(s: State, t: State, r: nat)
    requires r in s.procs && t.procs == s.procs[r := P(t, r)]
    ensures forall n :: Alone(s, r, n) ==> Alone(t, r, n)
  {
  }

  /** Letting go of flocks leaves the files alone. */
  lemma FewerOwners(s: State, t: State)
    requires FilesAgree(s) && t.dirs == s.dirs && t.nextInode == s.nextInode && t.owner.Keys <= s.owner.Keys
    ensures FilesAgree(t)
  {
    assert D(t, HOME) == D(s, HOME);
  }

  lemma ReuseFits(s: State, r: nat, name: string)
    requires Inv(s) && Enabled(s, Reuse(r, name))
    ensures var t := Step(s, Reuse(r, name));
            ProcFits(t, r, P(t, r))
  {
    Fits(s, r);
  }

  lemma EndCommandFits(s: State, r: nat)
    requires Inv(s) && Enabled(s, EndCommand(r))
    ensures var t := Step(s, EndCommand(r));
            ProcFits(t, r, P(t, r))
  {
    Fits(s, r);
  }

  lemma TeardownFits(s: State, a: Action)
    requires Inv(s) && Enabled(s, a) && (a.BeginTeardown? || a.SkipRelease? || a.EndTeardown?)
    ensures ProcFits(Step(s, a), a.r, P(Step(s, a), a.r))
  {
    Fits(s, a.r);
  }

  lemma SimpleFits(s: State, a: Action)
    requires Inv(s) && Enabled(s, a) && (a.Reuse? || a.EndCommand? || a.BeginTeardown? || a.SkipRelease? || a.EndTeardown?)
    ensures ProcFits(Step(s, a), a.r, P(Step(s, a), a.r)) && FilesAgree(Step(s, a))
  {
    FewerOwners(s, Step(s, a));
    match a
    case Reuse(r, name) => ReuseFits(s, r, name);
    case EndCommand(r) => EndCommandFits(s, r);
    case _ => TeardownFits(s, a);
  }

  lemma UnlockLockFits(s: State, r: nat)
    requires Inv(s) && r in s.procs && AtEnd(s.procs[r].phase)
    ensures LockFits(Unlock(s, r), r, AfterUnlock(s.procs[r].phase))
  {
    Fits(s, r);
  }

  lemma UnlockFits(s: State, r: nat)
    requires Inv(s) && r in s.procs && AtEnd(s.procs[r].phase)
    ensures ProcFits(Unlock(s, r), r, P(Unlock(s, r), r)) && FilesAgree(Unlock(s, r))
  {
    Fits(s, r);
    UnlockLockFits(s, r);
    FewerOwners(s, Unlock(s, r));
  }

  /** Only the stage of an ensuring runtime changes, and leases and containers. */
  lemma EnsureFrame(s: State, r: nat, outcome: Outcome)
    requires r in s.procs && s.procs[r].phase.Holding?
    requires s.procs[r].phase.job.Ensure? && !AtEnd(s.procs[r].phase)
    ensures var h, t := s.procs[r].phase, EnsureStep(s, r, s.procs[r].phase, outcome);
            && t.owner == s.owner && t.nextInode == s.nextInode && t.procs == s.procs[r := P(t, r)]
            && P(t, r).phase.Holding? && P(t, r).phase == h.(stage := P(t, r).phase.stage)
            && (h.dir == HOME ==> D(t, HOME).inodes == D(s, HOME).inodes && D(t, HOME).paths == D(s, HOME).paths)
  {
  }

  lemma EnsureLockFits(s: State, r: nat, outcome: Outcome)
    requires Inv(s) && r in s.procs && s.procs[r].phase.Holding?
    requires s.procs[r].phase.job.Ensure? && !AtEnd(s.procs[r].phase)
    ensures var t := EnsureStep(s, r, s.procs[r].phase, outcome);
            LockFits(t, r, P(t, r).phase) && FilesAgree(t)
  {
    var h, t := s.procs[r].phase, EnsureStep(s, r, s.procs[r].phase, outcome);
    Fits(s, r);
    EnsureFrame(s, r, outcome);
    AloneUnmoved(s, t, r);
    if P(t, r).phase.stage != Unlinked {
      assert Uses(h, h.name) && forall n :: Uses(P(t, r).phase, n) ==> n == h.name;
    }
  }

  lemma EnsurePhaseFits(s: State, r: nat, outcome: Outcome)
    requires Inv(s) && r in s.procs && s.procs[r].phase.Holding?
    requires s.procs[r].phase.job.Ensure? && !AtEnd(s.procs[r].phase)
    ensures var t := EnsureStep(s, r, s.procs[r].phase, outcome);
            LeasesFit(t, r, P(t, r)) && PhaseFits(t, P(t, r))
  {
    Fits(s, r);
  }

  /** Only the stage of a releasing runtime changes, and leases and containers,
      until it unlinks its lock. */
  lemma ReleaseFrame(s: State, r: nat, outcome: Outcome)
    requires r in s.procs && s.procs[r].phase.Holding?
    ensures var h, t := s.procs[r].phase, ReleaseStep(s, r, s.procs[r].phase, outcome);
            && t.owner == s.owner && t.nextInode == s.nextInode && t.procs == s.procs[r := P(t, r)]
            && P(t, r).phase.Holding? && P(t, r).phase == h.(stage := P(t, r).phase.stage)
            && (P(t, r).phase.stage == Unlinked <==> h.stage == Removed && !outcome.Fails?)
  {
  }

  lemma ReleaseHome(s: State, r: nat, outcome: Outcome)
    requires r in s.procs && s.procs[r].phase.Holding? && s.procs[r].phase.dir == HOME
    ensures var h, home := s.procs[r].phase, D(ReleaseStep(s, r, s.procs[r].phase, outcome), HOME);
            if h.stage == Removed && !outcome.Fails?
            then home.inodes == D(s, HOME).inodes - {LeaseLock(h.name)} && home.paths == D(s, HOME).paths - {LeaseLock(h.name)}
            else home.inodes == D(s, HOME).inodes && home.paths == D(s, HOME).paths
  {
  }

  lemma FewerFilesAgree(s: State, t: State, key: Key)
    requires FilesAgree(s) && t.owner == s.owner && t.nextInode == s.nextInode
    requires D(t, HOME).inodes == D(s, HOME).inodes - {key} && D(t, HOME).paths == D(s, HOME).paths - {key}
    ensures FilesAgree(t)
  {
  }

  lemma ReleaseLockFits(s: State, r: nat, outcome: Outcome)
    requires Inv(s) && r in s.procs && s.procs[r].phase.Holding?
    requires s.procs[r].phase.job.Release? && !AtEnd(s.procs[r].phase)
    ensures var t := ReleaseStep(s, r, s.procs[r].phase, outcome);
            LockFits(t, r, P(t, r).phase) && FilesAgree(t)
  {
    var h, t := s.procs[r].phase, ReleaseStep(s, r, s.procs[r].phase, outcome);
    Fits(s, r);
    ReleaseFrame(s, r, outcome);
    ReleaseHome(s, r, outcome);
    assert Uses(h, h.name) && forall n :: Uses(P(t, r).phase, n) ==> n == h.name;
    if P(t, r).phase.stage == Unlinked {
      FewerFilesAgree(s, t, LeaseLock(h.name));
    }
  }

  /** A releaser that finds no lease file finds no claim. */
  lemma NoLeaseNoClaim(s: State, r: nat)
    requires Inv(s) && r in s.procs && s.procs[r].phase.Holding? && s.procs[r].phase.job.Release?
    requires s.procs[r].phase.stage == LeaseGone && !Leased(D(s, HOME), s.procs[r].phase.name)
    ensures NoClaims(s, s.procs[r].phase.name)
  {
    var n := s.procs[r].phase.name;
    Fits(s, r);
    forall q | q in s.procs ensures n !in Claims(s.procs[q]) {
      Fits(s, q);
      assert n in Claims(s.procs[q]) ==> (n, q) in D(s, HOME).leases;
    }
  }

  lemma NoClaimsUnmoved(s: State, t: State, r: nat, name: string)
    requires r in s.procs && t.procs == s.procs[r := P(t, r)] && NoClaims(s, name) && name !in Claims(P(t, r))
    ensures NoClaims(t, name)
  {
  }

  lemma ReleasePhaseFits(s: State, r: nat, outcome: Outcome)
    requires Inv(s) && r in s.procs && s.procs[r].phase.Holding?
    requires s.procs[r].phase.job.Release? && !AtEnd(s.procs[r].phase)
    ensures var t := ReleaseStep(s, r, s.procs[r].phase, outcome);
            LeasesFit(t, r, P(t, r)) && PhaseFits(t, P(t, r))
  {
    var h := s.procs[r].phase;
    var t := ReleaseStep(s, r, h, outcome);
    Fits(s, r);
    if h.stage == LeaseGone && !Leased(D(s, HOME), h.name) {
      NoLeaseNoClaim(s, r);
      NoClaimsUnmoved(s, t, r, h.name);
    } else if h.stage == Empty {
      NoClaimsUnmoved(s, t, r, h.name);
    }
  }

  lemma MoverFits(s: State, a: Action)
    requires Inv(s) && Enabled(s, a) && ByRuntime(a) && Orderly(s, a)
    ensures ProcFits(Step(s, a), a.r, P(Step(s, a), a.r)) && FilesAgree(Step(s, a))
  {
    Fits(s, a.r);
    match a
    case OpenCommand(r, _) => OpenCommandFits(s, r);
    case OpenEnsure(r, name) => OpenLeaseFits(s, r, name, Ensure(P(s, r).phase.lock));
    case OpenRelease(r, name) => OpenLeaseFits(s, r, name, Release(P(s, r).phase.names - {name}));
    case Acquire(r) => AcquireFits(s, r);
    case Advance(r, outcome) =>
      if AtEnd(P(s, r).phase) {
        UnlockFits(s, r);
      } else if P(s, r).phase.job.Ensure? {
        EnsureLockFits(s, r, outcome);
        EnsurePhaseFits(s, r, outcome);
      } else {
        ReleaseLockFits(s, r, outcome);
        ReleasePhaseFits(s, r, outcome);
      }
    case _ => SimpleFits(s, a);
  }

  // ------------------------------------------------------------------ snapshots and mirroring

  lemma CopyKeepsInv(s: State, a: Action)
    requires Inv(s) && Enabled(s, a) && (a.Snapshot? || a.Discard?)
    ensures Inv(Step(s, a))
  {
    var t := Step(s, a);
    assert D(t, HOME) == D(s, HOME) && t.procs == s.procs;
    forall r | r in t.procs ensures ProcFits(t, r, t.procs[r]) {
      SameHomeFits(s, t, r);
    }
  }

  lemma SameHomeFits(s: State, t: State, r: nat)
    requires Inv(s) && r in s.procs && t.procs == s.procs && D(t, HOME) == D(s, HOME)
    requires t.owner == s.owner && t.nextInode == s.nextInode
    ensures ProcFits(t, r, t.procs[r])
  {
    Fits(s, r);
    assert forall n :: Alone(s, r, n) ==> Alone(t, r, n);
    assert forall n :: NoClaims(s, n) ==> NoClaims(t, n);
  }

  lemma SyncHome(s: State, copy: nat)
    requires Enabled(s, SyncBack(copy))
    ensures D(Step(s, SyncBack(copy)), HOME) == Mirrored(D(s, HOME), D(s, copy))
    ensures Step(s, SyncBack(copy)).procs == s.procs
  {
  }

  lemma SyncedFits(s: State, copy: nat, r: nat)
    requires Inv(s) && Enabled(s, SyncBack(copy)) && Covers(s, D(s, copy)) && r in s.procs
    ensures ProcFits(Step(s, SyncBack(copy)), r, s.procs[r])
  {
    var t := Step(s, SyncBack(copy));
    SyncHome(s, copy);
    Fits(s, r);
    assert forall n :: Alone(s, r, n) ==> Alone(t, r, n);
    assert forall n :: NoClaims(s, n) ==> NoClaims(t, n);
  }

  lemma CoveredBySync(s: State, copy: nat)
    requires Inv(s) && Enabled(s, SyncBack(copy)) && Inv(Step(s, SyncBack(copy)))
    ensures Covers(s, D(s, copy))
  {
    var t := Step(s, SyncBack(copy));
    SyncHome(s, copy);
    forall r | r in s.procs
      ensures forall n :: n in Claims(s.procs[r]) ==> (n, r) in D(s, copy).leases
      ensures CommandLock(s.procs[r].phase).Some? ==> CommandsLock in D(s, copy).paths
      ensures forall n :: Uses(s.procs[r].phase, n) ==>
                LeaseLock(n) in D(s, copy).paths || (Ensuring(s.procs[r].phase) && Alone(s, r, n))
    {
      Fits(t, r);
      assert forall n :: Alone(t, r, n) ==> Alone(s, r, n);
    }
  }

  /** Mirroring a copy back keeps locks and leases in agreement if and only if the
      copy covers what is claimed and in use at that moment. */
  lemma SyncKeepsInvExactly(s: State, copy: nat)
    requires Inv(s) && Enabled(s, SyncBack(copy))
    ensures Inv(Step(s, SyncBack(copy))) <==> Covers(s, D(s, copy))
  {
    var t := Step(s, SyncBack(copy));
    if Covers(s, D(s, copy)) {
      SyncHome(s, copy);
      forall r | r in t.procs ensures ProcFits(t, r, t.procs[r]) {
        SyncedFits(s, copy, r);
      }
    } else if Inv(t) {
      CoveredBySync(s, copy);
    }
  }

  /** In particular a copy covers that has exactly the lease files and lock paths
      there are now. */
  lemma UnchangedCopyCovers(s: State, copy: Dir)
    requires Inv(s) && copy.leases == D(s, HOME).leases && copy.paths == D(s, HOME).paths
    ensures Covers(s, copy)
  {
    forall r | r in s.procs
      ensures forall n :: n in Claims(s.procs[r]) ==> (n, r) in copy.leases
      ensures CommandLock(s.procs[r].phase).Some? ==> CommandsLock in copy.paths
      ensures forall n :: Uses(s.procs[r].phase, n) ==>
                LeaseLock(n) in copy.paths || (Ensuring(s.procs[r].phase) && Alone(s, r, n))
    {
      Fits(s, r);
    }
  }

  lemma StepKeepsInv(s: State, a: Action)
    requires Inv(s) && Enabled(s, a) && Orderly(s, a)
    ensures Inv(Step(s, a))
  {
    if a.SyncBack? {
      SyncKeepsInvExactly(s, a.copy);
    } else if !ByRuntime(a) {
      CopyKeepsInv(s, a);
    } else {
      var t := Step(s, a);
      MoverFits(s, a);
      OnlyMoverMoves(s, a);
      forall q | q in t.procs ensures ProcFits(t, q, t.procs[q]) {
        if q != a.r {
          OthersFit(s, a, q);
        }
      }
    }
  }

  /** Every state of an orderly run is in order. */
  lemma {:induction false} RunKeepsInv(states: seq<State>, acts: seq<Action>, k: nat)
    requires IsRun(states, acts) && OrderlyRun(states, acts) && Inv(states[0]) && k <= |acts|
    ensures Inv(states[k])
  {
    if k > 0 {
      var a := acts[k - 1];
      RunKeepsInv(states, acts, k - 1);
      StepKeepsInv(states[k - 1], a);
    }
  }

  // ------------------------------------------------------------------ containers

  lemma SomeoneClaims(s: State, r: nat)
    requires r in s.procs
    ensures forall n :: n in s.procs[r].held ==> n in Claims(s.procs[r])
  {
  }

  /** A container goes only at the hands of a releaser that has seen no claim. */
  lemma RemovedUnclaimed(s: State, a: Action, name: string)
    requires Inv(s) && Enabled(s, a) && name in s.containers && name !in Step(s, a).containers
    ensures a.Advance? && a.r in s.procs && Locks(s.procs[a.r].phase, name)
    ensures s.procs[a.r].phase.job.Release? && NoClaims(s, name)
  {
    if ByRuntime(a) {
      Fits(s, a.r);
    }
  }

  lemma OthersStayReal(s: State, a: Action, q: nat)
    requires Inv(s) && Real(s) && Enabled(s, a) && ByRuntime(a) && q in s.procs && q != a.r
    ensures forall n :: n in s.procs[q].held ==> n in Step(s, a).containers
    ensures RealStage(Step(s, a), s.procs[q].phase)
  {
    forall n | n in s.procs[q].held ensures n in Step(s, a).containers {
      if n !in Step(s, a).containers {
        RemovedUnclaimed(s, a, n);
        SomeoneClaims(s, q);
      }
    }
    var h := s.procs[q].phase;
    if Ensuring(h) && h.Holding? && (h.stage == Found || h.stage == Ready) && h.name !in Step(s, a).containers {
      RemovedUnclaimed(s, a, h.name);
      LockExcludes(s, q, a.r, h.name);
    }
  }

  lemma EnsurerStaysReal(s: State, r: nat, outcome: Outcome)
    requires Inv(s) && Real(s) && Enabled(s, Advance(r, outcome)) && !SilentCreation(s, Advance(r, outcome))
    requires P(s, r).phase.job.Ensure? && !AtEnd(P(s, r).phase)
    ensures var t := EnsureStep(s, r, P(s, r).phase, outcome);
            (forall n :: n in P(t, r).held ==> n in t.containers) && RealStage(t, P(t, r).phase)
  {
  }

  lemma AdvanceStaysReal(s: State, r: nat, outcome: Outcome)
    requires Inv(s) && Real(s) && Enabled(s, Advance(r, outcome)) && !SilentCreation(s, Advance(r, outcome))
    ensures var t := Step(s, Advance(r, outcome));
            (forall n :: n in P(t, r).held ==> n in t.containers) && RealStage(t, P(t, r).phase)
  {
    Fits(s, r);
    if P(s, r).phase.job.Ensure? && !AtEnd(P(s, r).phase) {
      EnsurerStaysReal(s, r, outcome);
    }
  }

  lemma MoverStaysReal(s: State, a: Action)
    requires Inv(s) && Real(s) && Enabled(s, a) && ByRuntime(a) && !SilentCreation(s, a)
    ensures forall n :: n in P(Step(s, a), a.r).held ==> n in Step(s, a).containers
    ensures RealStage(Step(s, a), P(Step(s, a), a.r).phase)
  {
    if a.Advance? {
      AdvanceStaysReal(s, a.r, a.outcome);
    }
  }

  lemma StepStaysReal(s: State, a: Action)
    requires Inv(s) && Real(s) && Enabled(s, a) && !SilentCreation(s, a)
    ensures Real(Step(s, a))
  {
    if ByRuntime(a) {
      OnlyMoverMoves(s, a);
      MoverStaysReal(s, a);
      forall q | q in s.procs && q != a.r
        ensures forall n :: n in s.procs[q].held ==> n in Step(s, a).containers
        ensures RealStage(Step(s, a), s.procs[q].phase)
      {
        OthersStayReal(s, a, q);
      }
    }
  }

  lemma {:induction false} RunStaysReal(states: seq<State>, acts: seq<Action>, k: nat)
    requires IsRun(states, acts) && OrderlyRun(states, acts) && LoudRun(states, acts) && k <= |acts|
    requires Inv(states[0]) && Real(states[0])
    ensures Real(states[k])
  {
    if k > 0 {
      var a := acts[k - 1];
      RunKeepsInv(states, acts, k - 1);
      RunStaysReal(states, acts, k - 1);
      StepStaysReal(states[k - 1], a);
    }
  }

  // ------------------------------------------------------------------ safety over orderly runs

  ghost predicate OrderlyReachable(s: State) {
    exists states: seq<State>, acts: seq<Action> ::
      IsRun(states, acts) && OrderlyRun(states, acts) && states[0] == Initial() && states[|acts|] == s
  }

  /** Reached by an orderly run in which no creation failed silently. */
  ghost predicate LoudlyReachable(s: State) {
    Runs(Initial(), s, true)
  }

  lemma OrderlyInv(s: State)
    requires OrderlyReachable(s)
    ensures Inv(s)
  {
    var states, acts :|
      IsRun(states, acts) && OrderlyRun(states, acts) && states[0] == Initial() && states[|acts|] == s;
    RunKeepsInv(states, acts, |acts|);
  }

  lemma RunsStayReal(s: State, t: State)
    requires Inv(s) && Real(s) && Runs(s, t, true)
    ensures Inv(t) && Real(t)
  {
    var states, acts :| IsRun(states, acts) && LoudRun(states, acts) && OrderlyRun(states, acts)
                        && states[0] == s && states[|acts|] == t;
    RunKeepsInv(states, acts, |acts|);
    RunStaysReal(states, acts, |acts|);
  }

  lemma LoudReal(s: State)
    requires LoudlyReachable(s)
    ensures Inv(s) && Real(s) && OrderlyReachable(s)
  {
    RunsStayReal(Initial(), s);
    var states, acts :| IsRun(states, acts) && LoudRun(states, acts) && OrderlyRun(states, acts)
                        && states[0] == Initial() && states[|acts|] == s;
  }

  /** In every orderly run, whatever calls fail and how: each container a runtime
      counts on, and the one its command runs in, has the runtime's lease file. */
  lemma LeasesAreKept(s: State)
    requires OrderlyReachable(s)
    ensures forall r, n :: r in s.procs && n in s.procs[r].held ==> (n, r) in D(s, HOME).leases
    ensures forall r :: r in s.procs && s.procs[r].phase.Executing? ==>
              (s.procs[r].phase.name, r) in D(s, HOME).leases
  {
    OrderlyInv(s);
    forall r | r in s.procs
      ensures forall n :: n in s.procs[r].held ==> (n, r) in D(s, HOME).leases
      ensures s.procs[r].phase.Executing? ==> s.procs[r].phase.name in s.procs[r].held
    {
      Fits(s, r);
      SomeoneClaims(s, r);
    }
  }

  /** If besides no creation fails silently, those containers also exist. */
  lemma LeasesAreSafe(s: State)
    requires LoudlyReachable(s)
    ensures forall r, n :: r in s.procs && n in s.procs[r].held ==>
              n in s.containers && (n, r) in D(s, HOME).leases
    ensures forall r :: r in s.procs && s.procs[r].phase.Executing? ==>
              s.procs[r].phase.name in s.containers && (s.procs[r].phase.name, r) in D(s, HOME).leases
  {
    LoudReal(s);
    LeasesAreKept(s);
    forall r | r in s.procs && s.procs[r].phase.Executing? ensures s.procs[r].phase.name in s.containers {
      Fits(s, r);
    }
  }

  /** Of the runtimes that hold a lease lock on one container, unlinked or not,
      only one still acts on the container. */
  lemma OneActsOnContainer(s: State, q: nat, r: nat, name: string)
    requires OrderlyReachable(s) && q in s.procs && r in s.procs
    requires Locks(s.procs[q].phase, name) && Locks(s.procs[r].phase, name)
    ensures q == r
  {
    OrderlyInv(s);
    LockExcludes(s, q, r, name);
  }

  /** A container disappears only at a moment when nobody counts on it, has still
      to release it or runs a command in it. */
  lemma RemovedOnlyUnclaimed(s: State, a: Action, name: string)
    requires OrderlyReachable(s) && Enabled(s, a)
    requires name in s.containers && name !in Step(s, a).containers
    ensures forall r :: r in s.procs ==>
              name !in Claims(s.procs[r]) && !(s.procs[r].phase.Executing? && s.procs[r].phase.name == name)
  {
    OrderlyInv(s);
    RemovedUnclaimed(s, a, name);
    forall r | r in s.procs
      ensures name !in Claims(s.procs[r]) && !(s.procs[r].phase.Executing? && s.procs[r].phase.name == name)
    {
      Fits(s, r);
    }
  }

  /** Whoever has seen no lease file still sees none. */
  ghost predicate StillEmpty(s: State) {
    forall r :: r in s.procs ==> EmptyFor(s, s.procs[r].phase)
  }

  ghost predicate EmptyFor(s: State, h: Phase) {
    h.Holding? && h.job.Release? && h.stage == Empty ==> !Leased(D(s, HOME), h.name)
  }

  lemma NewLeaseIsLocked(s: State, a: Action, l: (string, nat))
    requires Inv(s) && Enabled(s, a) && ByRuntime(a) && Orderly(s, a)
    requires l in D(Step(s, a), HOME).leases && l !in D(s, HOME).leases
    ensures Locks(P(s, a.r).phase, l.0) && P(s, a.r).phase.job.Ensure?
  {
    Fits(s, a.r);
    CallsDoExactly(s, a);
  }

  lemma MoverStillEmpty(s: State, a: Action)
    requires Inv(s) && Enabled(s, a) && ByRuntime(a)
    ensures var h := P(Step(s, a), a.r).phase;
            h.Holding? && h.job.Release? && h.stage == Empty ==> !Leased(D(Step(s, a), HOME), h.name)
  {
    Fits(s, a.r);
  }

  lemma OthersStillEmpty(s: State, a: Action, q: nat)
    requires Inv(s) && Enabled(s, a) && ByRuntime(a) && Orderly(s, a) && q in s.procs && q != a.r
    requires s.procs[q].phase.Holding? && s.procs[q].phase.stage == Empty
    requires !Leased(D(s, HOME), s.procs[q].phase.name)
    ensures !Leased(D(Step(s, a), HOME), s.procs[q].phase.name)
  {
    if Leased(D(Step(s, a), HOME), s.procs[q].phase.name) {
      var l :| l in D(Step(s, a), HOME).leases && l.0 == s.procs[q].phase.name;
      NewLeaseIsLocked(s, a, l);
      LockExcludes(s, q, a.r, l.0);
    }
  }

  lemma CopyLeavesHome(s: State, a: Action)
    requires Enabled(s, a) && (a.Snapshot? || a.Discard?)
    ensures D(Step(s, a), HOME) == D(s, HOME) && Step(s, a).procs == s.procs
  {
  }

  lemma StepStillEmpty(s: State, a: Action)
    requires Inv(s) && StillEmpty(s) && Enabled(s, a) && Orderly(s, a) && !a.SyncBack?
    ensures StillEmpty(Step(s, a))
  {
    var t := Step(s, a);
    if ByRuntime(a) {
      OnlyMoverMoves(s, a);
      forall q | q in t.procs ensures EmptyFor(t, t.procs[q].phase) {
        if q == a.r {
          MoverStillEmpty(s, a);
        } else if s.procs[q].phase.Holding? && s.procs[q].phase.job.Release? && s.procs[q].phase.stage == Empty {
          assert EmptyFor(s, s.procs[q].phase);
          OthersStillEmpty(s, a, q);
        }
      }
    } else {
      CopyLeavesHome(s, a);
      forall q | q in t.procs ensures EmptyFor(t, t.procs[q].phase) {
        assert EmptyFor(s, s.procs[q].phase);
      }
    }
  }

  lemma {:induction false} RunStillEmpty(states: seq<State>, acts: seq<Action>, k: nat)
    requires IsRun(states, acts) && OrderlyRun(states, acts) && k <= |acts|
    requires forall i :: 0 <= i < |acts| ==> !acts[i].SyncBack?
    requires Inv(states[0]) && StillEmpty(states[0])
    ensures StillEmpty(states[k])
  {
    if k > 0 {
      var a := acts[k - 1];
      RunKeepsInv(states, acts, k - 1);
      RunStillEmpty(states, acts, k - 1);
      StepStillEmpty(states[k - 1], a);
    }
  }

  /** As long as nothing is mirrored back, which could restore an old lease file,
      a container disappears only while it has no lease file at all. */
  lemma RemovedOnlyUnleased(states: seq<State>, acts: seq<Action>, a: Action, name: string)
    requires IsRun(states, acts) && OrderlyRun(states, acts) && states[0] == Initial()
    requires forall i :: 0 <= i < |acts| ==> !acts[i].SyncBack?
    requires Enabled(states[|acts|], a)
    requires name in states[|acts|].containers && name !in Step(states[|acts|], a).containers
    ensures !Leased(D(states[|acts|], HOME), name)
  {
    var s := states[|acts|];
    RunKeepsInv(states, acts, |acts|);
    RunStillEmpty(states, acts, |acts|);
    RemovedUnclaimed(s, a, name);
    assert s.procs[a.r].phase.stage == Empty;
  }

  // ------------------------------------------------------------------ creations that fail silently

  lemma RunsHere(s: State)
    ensures Runs(s, s, true)
  {
    assert IsRun([s], []) && LoudRun([s], []) && OrderlyRun([s], []);
  }

  lemma RunsOn(s: State, t: State, orderly: bool, a: Action) returns (u: State)
    requires Runs(s, t, orderly) && Enabled(t, a) && !SilentCreation(t, a) && (orderly ==> Orderly(t, a))
    ensures u == Step(t, a) && Runs(s, u, orderly)
  {
    u := Step(t, a);
    var states, acts :| IsRun(states, acts) && LoudRun(states, acts) && (orderly ==> OrderlyRun(states, acts))
                        && states[0] == s && states[|acts|] == t;
    Extends(states, acts, a);
  }

  lemma Extends(states: seq<State>, acts: seq<Action>, a: Action)
    requires IsRun(states, acts) && Enabled(states[|acts|], a)
    ensures var states1, acts1 := states + [Step(states[|acts|], a)], acts + [a];
            && IsRun(states1, acts1)
            && (LoudRun(states, acts) && !SilentCreation(states[|acts|], a) ==> LoudRun(states1, acts1))
            && (OrderlyRun(states, acts) && Orderly(states[|acts|], a) ==> OrderlyRun(states1, acts1))
  {
    var states1, acts1 := states + [Step(states[|acts|], a)], acts + [a];
    forall i | 0 <= i < |acts1|
      ensures Enabled(states1[i], acts1[i]) && states1[i + 1] == Step(states1[i], acts1[i])
      ensures i < |acts| ==> acts1[i] == acts[i] && states1[i] == states[i]
    {
      if i < |acts| {
        assert acts1[i] == acts[i] && states1[i] == states[i] && states1[i + 1] == states[i + 1];
      }
    }
  }

  /** After a silent creation the lease is registered and the runtime counts on nothing. */
  lemma SilentCreationBreaks(s: State, r: nat) returns (t: State)
    requires r in s.procs && s.procs[r].phase.Holding? && SilentCreation(s, Advance(r, Silent))
    ensures Runs(Step(s, Advance(r, Silent)), t, true) && !Real(t)
  {
    var name := s.procs[r].phase.name;
    var s1 := Step(s, Advance(r, Silent));
    RunsHere(s1);
    t := RunsOn(s1, s1, true, Advance(r, Succeeds));
    assert name in t.procs[r].held && name !in t.containers;
  }

  /** A creation may be taken for done exactly when it took effect, or the
      container was there, or it reported an error: any other leads, by orderly
      steps alone, to a runtime that counts on a container that does not exist. */
  lemma CreationSafeExactly(s: State, r: nat, outcome: Outcome)
    requires LoudlyReachable(s) && r in s.procs && s.procs[r].phase.Holding?
    requires s.procs[r].phase.job.Ensure? && s.procs[r].phase.stage == Absent
    ensures (forall t :: Runs(Step(s, Advance(r, outcome)), t, true) ==> Real(t))
            <==> !outcome.Silent? || s.procs[r].phase.name in s.containers
  {
    var a := Advance(r, outcome);
    LoudReal(s);
    if SilentCreation(s, a) {
      var t := SilentCreationBreaks(s, r);
    } else {
      StepKeepsInv(s, a);
      StepStaysReal(s, a);
      forall t | Runs(Step(s, a), t, true) ensures Real(t) {
        RunsStayReal(Step(s, a), t);
      }
    }
  }

  // ------------------------------------------------------------------ runs, put together

  /** Only runtime r and directory dir differ. */
  ghost predicate Apart(s: State, t: State, r: nat, dir: nat) {
    && (forall q :: q != r ==> (q in t.procs <==> q in s.procs) && (q in s.procs ==> t.procs[q] == s.procs[q]))
    && (forall d :: d != dir ==> (d in t.dirs <==> d in s.dirs) && D(t, d) == D(s, d))
  }

  lemma ApartOn(s: State, t: State, u: State, r: nat, dir: nat)
    requires Apart(s, t, r, dir) && Apart(t, u, r, dir)
    ensures Apart(s, u, r, dir)
  {
  }

  /** The two locks of a directory are different files, if they have been opened at all. */
  predicate LocksDiffer(s: State, dir: nat, name: string) {
    var inodes := D(s, dir).inodes;
    && (forall k :: k in [CommandsLock, LeaseLock(name)] && k in inodes ==> inodes[k] < s.nextInode)
    && (CommandsLock in inodes && LeaseLock(name) in inodes ==> inodes[CommandsLock] != inodes[LeaseLock(name)])
  }

  lemma GetsCommandsLock(s0: State, s: State, orderly: bool, r: nat, dir: nat, name: string) returns (t: State)
    requires Runs(s0, s, orderly) && s.owner == map[] && P(s, r).phase.Idle? && LocksDiffer(s, dir, name)
    requires (dir == HOME || dir in s.dirs) && (orderly ==> dir == HOME)
    ensures Runs(s0, t, orderly) && Apart(s, t, r, dir) && t.containers == s.containers && LocksDiffer(t, dir, name)
    ensures D(t, dir).leases == D(s, dir).leases && r in t.procs && CommandsLock in D(t, dir).inodes
    ensures t.procs[r] == P(s, r).(phase := Command(dir, D(t, dir).inodes[CommandsLock]))
    ensures t.owner == map[D(t, dir).inodes[CommandsLock] := r]
  {
    var s1 := RunsOn(s0, s, orderly, OpenCommand(r, dir));
    CommandOpened(s, r, dir, name);
    t := RunsOn(s0, s1, orderly, Acquire(r));
  }

  lemma CommandOpened(s: State, r: nat, dir: nat, name: string)
    requires s.owner == map[] && P(s, r).phase.Idle? && LocksDiffer(s, dir, name) && (dir == HOME || dir in s.dirs)
    ensures var t := Step(s, OpenCommand(r, dir));
            && t.owner == map[] && t.containers == s.containers && Apart(s, t, r, dir) && LocksDiffer(t, dir, name)
            && D(t, dir).leases == D(s, dir).leases && CommandsLock in D(t, dir).inodes
            && r in t.procs && t.procs[r] == P(s, r).(phase := Queued(dir, D(t, dir).inodes[CommandsLock]))
  {
  }

  lemma GetsLeaseLock(s0: State, s: State, orderly: bool, r: nat, dir: nat, name: string) returns (t: State)
    requires Runs(s0, s, orderly) && LocksDiffer(s, dir, name) && r in s.procs && s.procs[r].current.None?
    requires CommandsLock in D(s, dir).inodes && s.procs[r].phase == Command(dir, D(s, dir).inodes[CommandsLock])
    requires s.owner == map[s.procs[r].phase.lock := r]
    ensures Runs(s0, t, orderly) && Apart(s, t, r, dir) && t.containers == s.containers && LocksDiffer(t, dir, name)
    ensures D(t, dir).leases == D(s, dir).leases && r in t.procs
    ensures CommandsLock in D(t, dir).inodes && LeaseLock(name) in D(t, dir).inodes
    ensures t.procs[r] == s.procs[r].(phase := Holding(dir, name, D(t, dir).inodes[LeaseLock(name)],
                                                       Ensure(D(t, dir).inodes[CommandsLock]), Acquired))
    ensures t.owner == map[D(t, dir).inodes[CommandsLock] := r, D(t, dir).inodes[LeaseLock(name)] := r]
  {
    var s1 := RunsOn(s0, s, orderly, OpenEnsure(r, name));
    OpenedFor(s, r, dir, name, Ensure(s.procs[r].phase.lock));
    t := RunsOn(s0, s1, orderly, Acquire(r));
    LeaseLockGranted(s1, r);
  }

  lemma OpenedFor(s: State, r: nat, dir: nat, name: string, job: Job)
    requires LocksDiffer(s, dir, name)
    ensures var t := OpenLease(s, r, dir, name, job);
            && Apart(s, t, r, dir) && t.containers == s.containers && t.owner == s.owner && LocksDiffer(t, dir, name)
            && D(t, dir).leases == D(s, dir).leases && r in t.procs && LeaseLock(name) in D(t, dir).inodes
            && (CommandsLock in D(s, dir).inodes ==>
                  CommandsLock in D(t, dir).inodes && D(t, dir).inodes[CommandsLock] == D(s, dir).inodes[CommandsLock])
            && t.procs[r] == P(s, r).(phase := Waiting(dir, name, D(t, dir).inodes[LeaseLock(name)], job))
  {
  }

  lemma LeaseLockGranted(s: State, r: nat)
    requires r in s.procs && s.procs[r].phase.Waiting?
    ensures var w, t := s.procs[r].phase, Granted(s, r);
            && t == s.(owner := s.owner[w.inode := r], procs := t.procs)
            && t.procs == s.procs[r := s.procs[r].(phase := Holding(w.dir, w.name, w.inode, w.job, Acquired))]
  {
  }

  /** Found or created, the container is there to be leased. */
  lemma GetsContainer(s0: State, s: State, orderly: bool, r: nat) returns (t: State)
    requires Runs(s0, s, orderly) && r in s.procs
    requires s.procs[r].phase.Holding? && s.procs[r].phase.job.Ensure? && s.procs[r].phase.stage == Acquired
    ensures Runs(s0, t, orderly) && t.dirs == s.dirs && t.owner == s.owner && t.nextInode == s.nextInode
    ensures t.containers == s.containers + {s.procs[r].phase.name}
    ensures t.procs == s.procs[r := s.procs[r].(phase := s.procs[r].phase.(stage := Ready))]
  {
    var s1 := RunsOn(s0, s, orderly, Advance(r, Succeeds));
    t := RunsOn(s0, s1, orderly, Advance(r, Succeeds));
  }

  predicate Registering(p: Proc) {
    && p.held == {} && p.phase.Holding? && p.phase.job.Ensure? && p.phase.stage == Ready
  }

  lemma LeaseRegistered(s: State, r: nat)
    requires r in s.procs && Registering(s.procs[r])
    ensures var h, t := s.procs[r].phase, EnsureStep(s, r, s.procs[r].phase, Succeeds);
            && Apart(s, t, r, h.dir) && t.containers == s.containers && t.owner == s.owner && t.nextInode == s.nextInode
            && D(t, h.dir) == D(s, h.dir).(leases := D(s, h.dir).leases + {(h.name, r)}) && h.dir in t.dirs
            && r in t.procs && t.procs[r] == Proc(h.(stage := Ensured), {h.name}, Some(h.name), h.dir)
  {
    assert {} + {s.procs[r].phase.name} == {s.procs[r].phase.name};
  }

  lemma CommandEnded(s: State, r: nat, lock: nat, inode: nat)
    requires r in s.procs && s.owner == map[lock := r, inode := r]
    requires s.procs[r].phase.Holding? && s.procs[r].phase.inode == inode
    requires s.procs[r].phase.job == Ensure(lock) && s.procs[r].phase.stage == Ensured
    ensures var t := Unlock(s, r);
            Step(t, EndCommand(r)) == s.(owner := map[], procs := s.procs[r := s.procs[r].(phase := Idle)])
  {
    assert s.owner - {inode} - {lock} == map[];
    assert Unlock(s, r).procs[r := s.procs[r].(phase := Idle)] == s.procs[r := s.procs[r].(phase := Idle)];
  }

  lemma EndsCommand(s0: State, s: State, orderly: bool, r: nat) returns (t: State)
    requires Runs(s0, s, orderly) && r in s.procs && s.procs[r].phase.Holding?
    requires s.procs[r].phase.job.Ensure? && s.procs[r].phase.stage == Ensured
    requires s.owner == map[s.procs[r].phase.job.lock := r, s.procs[r].phase.inode := r]
    ensures Runs(s0, t, orderly) && t == s.(owner := map[], procs := s.procs[r := s.procs[r].(phase := Idle)])
  {
    var s1 := RunsOn(s0, s, orderly, Advance(r, Succeeds));
    t := RunsOn(s0, s1, orderly, EndCommand(r));
    CommandEnded(s, r, s.procs[r].phase.job.lock, s.procs[r].phase.inode);
  }

  /** The lease is registered, the command runs and ends. */
  lemma LeasesAndRuns(s0: State, s: State, orderly: bool, r: nat) returns (t: State)
    requires Runs(s0, s, orderly) && r in s.procs && Registering(s.procs[r])
    requires s.owner == map[s.procs[r].phase.job.lock := r, s.procs[r].phase.inode := r]
    ensures Runs(s0, t, orderly) && Apart(s, t, r, s.procs[r].phase.dir) && t.containers == s.containers
    ensures t.owner == map[] && t.nextInode == s.nextInode && r in t.procs && s.procs[r].phase.dir in t.dirs
    ensures var h := s.procs[r].phase;
            && D(t, h.dir) == D(s, h.dir).(leases := D(s, h.dir).leases + {(h.name, r)})
            && t.procs[r] == Proc(Idle, {h.name}, Some(h.name), h.dir)
  {
    var s1 := RunsOn(s0, s, orderly, Advance(r, Succeeds));
    LeaseRegistered(s, r);
    t := EndsCommand(s0, s1, orderly, r);
    ApartOn(s, s1, t, r, s.procs[r].phase.dir);
  }

  lemma GetsLocks(s0: State, s: State, orderly: bool, r: nat, dir: nat, name: string) returns (t: State)
    requires Runs(s0, s, orderly) && s.owner == map[] && LocksDiffer(s, dir, name)
    requires P(s, r).phase.Idle? && P(s, r).held == {} && P(s, r).current.None?
    requires (dir == HOME || dir in s.dirs) && (orderly ==> dir == HOME)
    ensures Runs(s0, t, orderly) && Apart(s, t, r, dir) && t.containers == s.containers && LocksDiffer(t, dir, name)
    ensures D(t, dir).leases == D(s, dir).leases && r in t.procs && t.procs[r].held == {}
    ensures var h := t.procs[r].phase;
            && h.Holding? && h.job.Ensure? && h.stage == Acquired && h.dir == dir && h.name == name
            && t.owner == map[h.job.lock := r, h.inode := r]
  {
    var s1 := GetsCommandsLock(s0, s, orderly, r, dir, name);
    t := GetsLeaseLock(s0, s1, orderly, r, dir, name);
    ApartOn(s, s1, t, r, dir);
  }

  /** A whole command of a runtime that holds nothing yet. */
  lemma RunsCommand(s0: State, s: State, orderly: bool, r: nat, dir: nat, name: string) returns (t: State)
    requires Runs(s0, s, orderly) && s.owner == map[] && LocksDiffer(s, dir, name)
    requires P(s, r).phase.Idle? && P(s, r).held == {} && P(s, r).current.None?
    requires (dir == HOME || dir in s.dirs) && (orderly ==> dir == HOME)
    ensures Runs(s0, t, orderly) && Apart(s, t, r, dir) && t.owner == map[] && LocksDiffer(t, dir, name)
    ensures t.containers == s.containers + {name} && D(t, dir).leases == D(s, dir).leases + {(name, r)}
    ensures r in t.procs && t.procs[r] == Proc(Idle, {name}, Some(name), dir) && dir in t.dirs
  {
    var s1 := GetsLocks(s0, s, orderly, r, dir, name);
    var s2 := GetsContainer(s0, s1, orderly, r);
    ApartOn(s, s1, s2, r, dir);
    t := LeasesAndRuns(s0, s2, orderly, r);
    ApartOn(s, s2, t, r, dir);
  }

  lemma StartsRelease(s0: State, s: State, orderly: bool, r: nat, name: string) returns (t: State)
    requires Runs(s0, s, orderly) && s.owner == map[] && r in s.procs && LocksDiffer(s, s.procs[r].hint, name)
    requires s.procs[r].phase.Idle? && s.procs[r].held == {name}
    ensures var dir := s.procs[r].hint;
            && Runs(s0, t, orderly) && Apart(s, t, r, dir) && t.containers == s.containers
            && D(t, dir).leases == D(s, dir).leases && r in t.procs
            && LeaseLock(name) in D(t, dir).inodes && LocksDiffer(t, dir, name)
            && t.procs[r].phase == Holding(dir, name, D(t, dir).inodes[LeaseLock(name)], Release({}), Acquired)
            && t.owner == map[D(t, dir).inodes[LeaseLock(name)] := r]
  {
    var dir := s.procs[r].hint;
    var s1 := RunsOn(s0, s, orderly, BeginTeardown(r));
    assert s1 == s.(procs := s.procs[r := Proc(Teardown(dir, {name}), {}, None, dir)]);
    t := LocksForRelease(s0, s1, orderly, r, name);
    ApartOn(s, s1, t, r, dir);
  }

  lemma LocksForRelease(s0: State, s: State, orderly: bool, r: nat, name: string) returns (t: State)
    requires Runs(s0, s, orderly) && s.owner == map[] && r in s.procs
    requires s.procs[r].phase.Teardown? && s.procs[r].phase.names == {name}
    requires LocksDiffer(s, s.procs[r].phase.dir, name)
    ensures var dir := s.procs[r].phase.dir;
            && Runs(s0, t, orderly) && Apart(s, t, r, dir) && t.containers == s.containers
            && D(t, dir).leases == D(s, dir).leases && r in t.procs
            && LeaseLock(name) in D(t, dir).inodes && LocksDiffer(t, dir, name)
            && t.procs[r].phase == Holding(dir, name, D(t, dir).inodes[LeaseLock(name)], Release({}), Acquired)
            && t.owner == map[D(t, dir).inodes[LeaseLock(name)] := r]
  {
    var s1 := RunsOn(s0, s, orderly, OpenRelease(r, name));
    assert {name} - {name} == {};
    OpenedFor(s, r, s.procs[r].phase.dir, name, Release({}));
    t := RunsOn(s0, s1, orderly, Acquire(r));
    LeaseLockGranted(s1, r);
  }

  /** The releaser's own lease file is gone. */
  lemma DropsLease(s0: State, s: State, orderly: bool, r: nat) returns (t: State)
    requires Runs(s0, s, orderly) && r in s.procs && s.procs[r].phase.Holding?
    requires s.procs[r].phase.job.Release? && s.procs[r].phase.stage == Acquired
    ensures var h := s.procs[r].phase;
            && Runs(s0, t, orderly) && Apart(s, t, r, h.dir) && t.containers == s.containers
            && D(t, h.dir) == D(s, h.dir).(leases := D(s, h.dir).leases - {(h.name, r)}) && r in t.procs
            && t.procs[r].phase == h.(stage := LeaseGone) && t.owner == s.owner && t.nextInode == s.nextInode
  {
    t := RunsOn(s0, s, orderly, Advance(r, Succeeds));
  }

  lemma RemovesContainer(s0: State, s: State, orderly: bool, r: nat) returns (t: State)
    requires Runs(s0, s, orderly) && r in s.procs && s.procs[r].phase.Holding?
    requires s.procs[r].phase.job.Release? && s.procs[r].phase.stage == LeaseGone
    requires !Leased(D(s, s.procs[r].phase.dir), s.procs[r].phase.name)
    ensures Runs(s0, t, orderly) && t.containers == s.containers - {s.procs[r].phase.name}
    ensures t.dirs == s.dirs && t.owner == s.owner && t.nextInode == s.nextInode
    ensures t.procs == s.procs[r := s.procs[r].(phase := s.procs[r].phase.(stage := Removed))]
  {
    var s1 := RunsOn(s0, s, orderly, Advance(r, Succeeds));
    t := RunsOn(s0, s1, orderly, Advance(r, Succeeds));
  }

  /** Whoever tears down and sees no other lease in the directory it last leased in
      removes the container, whatever leases other directories hold. */
  lemma LastInDirectoryRemoves(s0: State, s: State, orderly: bool, r: nat, name: string) returns (t: State)
    requires Runs(s0, s, orderly) && s.owner == map[] && r in s.procs
    requires s.procs[r].phase.Idle? && s.procs[r].held == {name}
    requires LocksDiffer(s, s.procs[r].hint, name)
    requires forall l :: l in D(s, s.procs[r].hint).leases && l.0 == name ==> l.1 == r
    ensures Runs(s0, t, orderly) && Apart(s, t, r, s.procs[r].hint) && name !in t.containers
    ensures var dir := s.procs[r].hint;
            && LeaseLock(name) in D(t, dir).inodes && LocksDiffer(t, dir, name) && r in t.procs
            && t.procs[r].phase == Holding(dir, name, D(t, dir).inodes[LeaseLock(name)], Release({}), Removed)
            && t.owner == map[D(t, dir).inodes[LeaseLock(name)] := r]
  {
    var dir := s.procs[r].hint;
    var s1 := StartsRelease(s0, s, orderly, r, name);
    var s2 := DropsLease(s0, s1, orderly, r);
    ApartOn(s, s1, s2, r, dir);
    assert !Leased(D(s2, dir), name);
    t := RemovesContainer(s0, s2, orderly, r);
    ApartOn(s, s2, t, r, dir);
  }

  /** Such a creation is met in the very first command: the image is missing, say,
      the lease is registered all the same, and no container exists. */
  lemma SilentCreationReached(name: string) returns (s: State, t: State)
    ensures LoudlyReachable(s) && Enabled(s, Advance(0, Silent)) && SilentCreation(s, Advance(0, Silent))
    ensures Runs(Step(s, Advance(0, Silent)), t, true) && !Real(t)
  {
    RunsHere(Initial());
    var s1 := GetsLocks(Initial(), Initial(), true, 0, HOME, name);
    s := RunsOn(Initial(), s1, true, Advance(0, Succeeds));
    t := SilentCreationBreaks(s, 0);
  }

  // ------------------------------------------------------------------ when mirroring or a copy's leases break it

  /** Runtime 0 has run a command in the workspace, and a shell has then copied it. */
  lemma OneLeaseCopied(name: string) returns (s: State)
    ensures LoudlyReachable(s) && s.owner == map[] && s.containers == {name} && LocksDiffer(s, HOME, name)
    ensures s.procs.Keys == {0} && s.procs[0] == Proc(Idle, {name}, Some(name), HOME)
    ensures s.dirs.Keys == {HOME, 1} && D(s, HOME).leases == {(name, 0)}
    ensures D(s, 1).inodes == map[] && D(s, 1).leases == {(name, 0)}
  {
    RunsHere(Initial());
    var s1 := RunsCommand(Initial(), Initial(), true, 0, HOME, name);
    assert {} + {name} == {name} && {} + {(name, 0)} == {(name, 0)};
    assert D(s1, 1) == D(Initial(), 1) && 1 !in s1.dirs;
    s := RunsOn(Initial(), s1, true, Snapshot(1));
  }

  /** A lease registered while a shell runs is lost when the shell's copy is mirrored
      back, and orderly steps then lead to the removal of a container in use. */
  lemma SyncLosesLease(name: string) returns (s: State, t: State)
    ensures LoudlyReachable(s) && Enabled(s, SyncBack(1)) && !Covers(s, D(s, 1))
    ensures 1 in s.procs && name in s.procs[1].held && (name, 1) !in D(Step(s, SyncBack(1)), HOME).leases
    ensures Runs(Step(s, SyncBack(1)), t, true) && 1 in t.procs && name in t.procs[1].held && name !in t.containers
  {
    var s1 := OneLeaseCopied(name);
    s := RunsCommand(Initial(), s1, true, 1, HOME, name);
    assert D(s, 1) == D(s1, 1) && s.procs[0] == s1.procs[0];
    assert name in Claims(s.procs[1]) && (name, 1) !in D(s, 1).leases;
    var u := Step(s, SyncBack(1));
    SyncHome(s, 1);
    RunsHere(u);
    t := LastInDirectoryRemoves(u, u, true, 0, name);
  }

  /** A command run inside a shell leases in the shell's copy. Mirrored back, the
      copy covers everything. */
  lemma CommandInCopy(name: string) returns (s: State)
    ensures Runs(Initial(), s, false) && Enabled(s, SyncBack(1)) && Covers(s, D(s, 1)) && s.owner == map[]
    ensures 0 in s.procs && s.procs[0] == Proc(Idle, {name}, Some(name), HOME)
    ensures 1 in s.procs && s.procs[1] == Proc(Idle, {name}, Some(name), 1)
    ensures (name, 0) in D(s, 1).leases
  {
    var s1 := OneLeaseCopied(name);
    AnyRun(s1);
    s := RunsCommand(Initial(), s1, false, 1, 1, name);
    assert s.procs[0] == s1.procs[0];
    forall r | r in s.procs
      ensures forall n :: n in Claims(s.procs[r]) ==> n == name && (n, r) in D(s, 1).leases
      ensures CommandLock(s.procs[r].phase).None? && forall n :: !Uses(s.procs[r].phase, n)
    {
      assert r == 0 || r == 1;
    }
  }

  lemma AnyRun(s: State)
    requires LoudlyReachable(s)
    ensures Runs(Initial(), s, false)
  {
    var states, acts :| IsRun(states, acts) && LoudRun(states, acts) && OrderlyRun(states, acts)
                        && states[0] == Initial() && states[|acts|] == s;
  }

  /** Its runtime's teardown looks for other leases in the copy's directory, which
      is gone, finds none, and removes a container that another runtime holds with
      its lease file in place. */
  lemma CommandInCopyRemoves(name: string) returns (s: State, t: State)
    ensures Runs(Initial(), s, false) && Enabled(s, SyncBack(1)) && Covers(s, D(s, 1))
    ensures Runs(Step(s, SyncBack(1)), t, true) && 0 in t.procs && name in t.procs[0].held
    ensures name !in t.containers && (name, 0) in D(t, HOME).leases
  {
    s := CommandInCopy(name);
    var u := Step(s, SyncBack(1));
    SyncHome(s, 1);
    RunsHere(u);
    assert D(u, 1) == Dir({}, map[], {});
    t := LastInDirectoryRemoves(u, u, true, 1, name);
    assert D(t, HOME) == D(u, HOME);
  }

  // ------------------------------------------------------------------ lock files unlinked under a waiter

  /** A runtime waits on a lock file that no path names any more. */
  ghost predicate WaitsOnUnlinked(s: State, r: nat) {
    && r in s.procs && s.procs[r].phase.Waiting? && s.procs[r].phase.dir == HOME
    && LeaseLock(s.procs[r].phase.name) !in D(s, HOME).paths && LeaseLock(s.procs[r].phase.name) !in D(s, HOME).inodes
  }

  /** Runtime 1 opens the lock to ensure the container while runtime 0 holds it. */
  lemma WaiterArrives(s0: State, s: State, name: string) returns (t: State)
    requires Runs(s0, s, true) && LocksDiffer(s, HOME, name) && 0 in s.procs && 1 !in s.procs
    requires s.procs[0].phase.Holding? && s.procs[0].phase.stage == Removed && s.procs[0].phase.job.Release?
    requires s.procs[0].phase.dir == HOME && s.procs[0].phase.name == name && LeaseLock(name) in D(s, HOME).inodes
    requires s.owner == map[D(s, HOME).inodes[LeaseLock(name)] := 0]
    ensures Runs(s0, t, true) && 0 in t.procs && 1 in t.procs && t.procs[0] == s.procs[0]
    ensures t.procs[1].phase.Waiting? && t.procs[1].phase.dir == HOME && t.procs[1].phase.name == name
  {
    var s1 := RunsOn(s0, s, true, OpenCommand(1, HOME));
    assert s1.procs[1].phase.lock !in s1.owner;
    var s2 := RunsOn(s0, s1, true, Acquire(1));
    t := RunsOn(s0, s2, true, OpenEnsure(1, name));
  }

  /** The lock file does get unlinked under a waiter: runtime 1 opens it to ensure
      the container that runtime 0 has just removed as its last holder. */
  lemma UnlinkedUnderWaiter(name: string) returns (s: State)
    ensures LoudlyReachable(s) && WaitsOnUnlinked(s, 1)
  {
    RunsHere(Initial());
    var s1 := RunsCommand(Initial(), Initial(), true, 0, HOME, name);
    assert D(s1, HOME).leases == {(name, 0)};
    var s2 := LastInDirectoryRemoves(Initial(), s1, true, 0, name);
    var s3 := WaiterArrives(Initial(), s2, name);
    s := RunsOn(Initial(), s3, true, Advance(0, Succeeds));
  }

  /** That is harmless in orderly runs: whoever waits on an unlinked lock file is
      about to ensure the container, and nobody else claims the container, acts on
      it or waits for its lock. */
  lemma UnlinkedWaiterIsAlone(s: State, r: nat)
    requires OrderlyReachable(s) && WaitsOnUnlinked(s, r)
    ensures Ensuring(s.procs[r].phase) && Alone(s, r, s.procs[r].phase.name)
  {
    OrderlyInv(s);
    Fits(s, r);
    assert Uses(s.procs[r].phase, s.procs[r].phase.name);
  }

  // ------------------------------------------------------------------ nothing is left over

  /** Every call succeeds, and nothing mirrored back changes the lease files. */
  ghost predicate Smooth(s: State, a: Action) {
    && Orderly(s, a)
    && (a.Advance? ==> a.outcome.Succeeds?) && !a.SkipRelease?
    && (a.SyncBack? ==> D(s, a.copy).leases == D(s, HOME).leases)
  }

  ghost predicate SmoothRun(states: seq<State>, acts: seq<Action>)
    requires IsRun(states, acts)
  {
    forall i {:trigger acts[i]} :: 0 <= i < |acts| ==> Smooth(states[i], acts[i])
  }

  /** A runtime that has just created the container, or is releasing it. */
  predicate Tends(phase: Phase, name: string) {
    && phase.Holding? && phase.name == name
    && (if phase.job.Ensure? then phase.stage == Ready else phase.stage == LeaseGone || phase.stage == Empty)
  }

  predicate Cares(p: Proc, name: string) {
    name in Claims(p) || Tends(p.phase, name)
  }

  ghost predicate Tidy(s: State) {
    && (forall l :: l in D(s, HOME).leases ==> l.1 in s.procs && l.0 in Claims(s.procs[l.1]))
    && (forall n :: n in s.containers ==> exists r :: r in s.procs && Cares(s.procs[r], n))
  }

  lemma CareLasts(s: State, a: Action, name: string)
    requires Inv(s) && Enabled(s, a) && ByRuntime(a) && Smooth(s, a) && !a.Advance?
    requires Cares(P(s, a.r), name)
    ensures Cares(P(Step(s, a), a.r), name)
  {
    Fits(s, a.r);
  }

  lemma EnsurerStillCares(s: State, r: nat, name: string)
    requires Inv(s) && Enabled(s, Advance(r, Succeeds)) && Cares(P(s, r), name)
    requires P(s, r).phase.job.Ensure? || AtEnd(P(s, r).phase)
    ensures Cares(P(Step(s, Advance(r, Succeeds)), r), name)
  {
    Fits(s, r);
  }

  /** What the mover stops caring about is gone, or another runtime claims it. */
  lemma CareEnds(s: State, r: nat, name: string)
    requires Inv(s) && Tidy(s) && Enabled(s, Advance(r, Succeeds))
    requires Cares(P(s, r), name) && !Cares(P(Step(s, Advance(r, Succeeds)), r), name)
    ensures name !in Step(s, Advance(r, Succeeds)).containers
            || exists q :: q in s.procs && q != r && name in Claims(s.procs[q])
  {
    Fits(s, r);
    var h := P(s, r).phase;
    if h.job.Ensure? || AtEnd(h) {
      EnsurerStillCares(s, r, name);
    } else if h.stage == LeaseGone {
      var l :| l in D(s, HOME).leases && l.0 == name;
      assert l.1 in s.procs && name in Claims(s.procs[l.1]);
    }
  }

  lemma CreatedIsTended(s: State, a: Action, name: string)
    requires Enabled(s, a) && ByRuntime(a) && Smooth(s, a) && name !in s.containers && name in Step(s, a).containers
    ensures a.r in Step(s, a).procs && Cares(Step(s, a).procs[a.r], name)
  {
  }

  lemma StepTidiesContainers(s: State, a: Action, name: string)
    requires Inv(s) && Tidy(s) && Enabled(s, a) && ByRuntime(a) && Smooth(s, a) && name in Step(s, a).containers
    ensures exists r :: r in Step(s, a).procs && Cares(Step(s, a).procs[r], name)
  {
    var t := Step(s, a);
    OnlyMoverMoves(s, a);
    if name !in s.containers {
      CreatedIsTended(s, a, name);
    } else {
      var r :| r in s.procs && Cares(s.procs[r], name);
      if r != a.r {
        assert t.procs[r] == s.procs[r];
      } else if !a.Advance? {
        CareLasts(s, a, name);
      } else if !Cares(P(t, a.r), name) {
        CareEnds(s, a.r, name);
        var q :| q in s.procs && q != a.r && name in Claims(s.procs[q]);
        assert t.procs[q] == s.procs[q] && Cares(t.procs[q], name);
      }
    }
  }

  lemma AdvanceTidiesLeases(s: State, r: nat, l: (string, nat))
    requires Inv(s) && Tidy(s) && Enabled(s, Advance(r, Succeeds)) && l in D(Step(s, Advance(r, Succeeds)), HOME).leases
    ensures if l.1 == r then l.0 in Claims(P(Step(s, Advance(r, Succeeds)), r)) else l in D(s, HOME).leases
  {
    Fits(s, r);
  }

  lemma OthersKeepLeases(s: State, a: Action)
    requires Inv(s) && Enabled(s, a) && ByRuntime(a) && Smooth(s, a) && !a.Advance?
    ensures D(Step(s, a), HOME).leases == D(s, HOME).leases
    ensures Claims(P(Step(s, a), a.r)) == Claims(P(s, a.r))
  {
    Fits(s, a.r);
    KeepsClaims(s, a);
  }

  lemma KeepsClaims(s: State, a: Action)
    requires Enabled(s, a) && ByRuntime(a) && !a.Advance? && !a.SkipRelease?
    requires Releasing(P(s, a.r).phase) ==> P(s, a.r).held == {}
    ensures Claims(P(Step(s, a), a.r)) == Claims(P(s, a.r))
  {
    match a
    case OpenRelease(r, name) =>
      var names := P(s, r).phase.names;
      assert names - {name} + {name} == names;
    case _ =>
  }

  /** The mover's lease files are its claims, before and after. */
  lemma StepTidiesLeases(s: State, a: Action, l: (string, nat))
    requires Inv(s) && Tidy(s) && Enabled(s, a) && ByRuntime(a) && Smooth(s, a) && l in D(Step(s, a), HOME).leases
    ensures l.1 in Step(s, a).procs && l.0 in Claims(Step(s, a).procs[l.1])
  {
    OnlyMoverMoves(s, a);
    if a.Advance? {
      AdvanceTidiesLeases(s, a.r, l);
    } else {
      OthersKeepLeases(s, a);
    }
  }

  lemma StepStaysTidy(s: State, a: Action)
    requires Inv(s) && Tidy(s) && Enabled(s, a) && Smooth(s, a)
    ensures Tidy(Step(s, a))
  {
    var t := Step(s, a);
    if ByRuntime(a) {
      forall n | n in t.containers ensures exists r :: r in t.procs && Cares(t.procs[r], n) {
        StepTidiesContainers(s, a, n);
      }
      forall l | l in D(t, HOME).leases ensures l.1 in t.procs && l.0 in Claims(t.procs[l.1]) {
        StepTidiesLeases(s, a, l);
      }
    } else {
      assert D(t, HOME).leases == D(s, HOME).leases && t.procs == s.procs && t.containers == s.containers;
    }
  }

  lemma {:induction false} SmoothRunStaysTidy(states: seq<State>, acts: seq<Action>, k: nat)
    requires IsRun(states, acts) && SmoothRun(states, acts) && Inv(states[0]) && Tidy(states[0]) && k <= |acts|
    ensures Inv(states[k]) && Tidy(states[k])
  {
    if k > 0 {
      var a := acts[k - 1];
      SmoothRunStaysTidy(states, acts, k - 1);
      StepKeepsInv(states[k - 1], a);
      StepStaysTidy(states[k - 1], a);
    }
  }

  /** The last holder removes the container: when every call succeeds, each container
      has a runtime that claims it, has just created it or is removing it, so none is
      left, nor any lease file, whenever all runtimes are idle and hold nothing. */
  lemma LastHolderRemoves(states: seq<State>, acts: seq<Action>)
    requires IsRun(states, acts) && SmoothRun(states, acts) && states[0] == Initial()
    ensures var s := states[|acts|];
            && (forall n :: n in s.containers ==> exists r :: r in s.procs && Cares(s.procs[r], n))
            && ((forall r :: r in s.procs ==> s.procs[r].phase.Idle? && s.procs[r].held == {}) ==>
                  s.containers == {} && D(s, HOME).leases == {})
  {
    SmoothRunStaysTidy(states, acts, |acts|);
    var s := states[|acts|];
    if forall r :: r in s.procs ==> s.procs[r].phase.Idle? && s.procs[r].held == {} {
      assert forall r, n :: r in s.procs ==> !Cares(s.procs[r], n);
    }
  }

  // ------------------------------------------------------------------ what single calls do

  /** The call takes effect, whether it reports so or not. */
  predicate TakesEffect(outcome: Outcome) {
    outcome.Succeeds? || outcome.HalfDone?
  }

  predicate IsAt(h: Phase, ensuring: bool, stage: Stage) {
    h.Holding? && h.job.Ensure? == ensuring && h.stage == stage
  }

  /** Containers come and go, and lease files in the runtime's directory, by exactly
      these calls of a lock holder, each for its own container, and exactly when the
      call takes effect. */
  ghost predicate DoesExactly(s: State, r: nat, outcome: Outcome, t: State) {
    var h := P(s, r).phase;
    && h.Holding?
    && t.containers == (if TakesEffect(outcome) && IsAt(h, true, Absent) then s.containers + {h.name}
                        else if TakesEffect(outcome) && IsAt(h, false, Empty) then s.containers - {h.name}
                        else s.containers)
    && D(t, h.dir).leases == (if TakesEffect(outcome) && IsAt(h, true, Ready) then D(s, h.dir).leases + {(h.name, r)}
                              else if TakesEffect(outcome) && IsAt(h, false, Acquired) then D(s, h.dir).leases - {(h.name, r)}
                              else D(s, h.dir).leases)
  }

  lemma CallsDoExactly(s: State, a: Action)
    requires Enabled(s, a)
    ensures a.Advance? ==> DoesExactly(s, a.r, a.outcome, Step(s, a))
    ensures !a.Advance? ==> Step(s, a).containers == s.containers
    ensures ByRuntime(a) && !a.Advance? ==> forall d :: D(Step(s, a), d).leases == D(s, d).leases
  {
    if a.Advance? && !AtEnd(P(s, a.r).phase) {
      if P(s, a.r).phase.job.Ensure? {
        EnsureDoesExactly(s, a.r, a.outcome);
      } else {
        ReleaseDoesExactly(s, a.r, a.outcome);
      }
    }
  }

  lemma EnsureDoesExactly(s: State, r: nat, outcome: Outcome)
    requires P(s, r).phase.Holding? && P(s, r).phase.job.Ensure? && (outcome.Silent? ==> ContainerCall(P(s, r).phase))
    ensures DoesExactly(s, r, outcome, EnsureStep(s, r, P(s, r).phase, outcome))
  {
  }

  lemma ReleaseDoesExactly(s: State, r: nat, outcome: Outcome)
    requires P(s, r).phase.Holding? && P(s, r).phase.job.Release? && (outcome.Silent? ==> ContainerCall(P(s, r).phase))
    ensures DoesExactly(s, r, outcome, ReleaseStep(s, r, P(s, r).phase, outcome))
  {
  }

  /** A listing that succeeds sends its runtime on to create the container exactly
      when the container is not there. */
  lemma ListingDecides(s: State, r: nat)
    requires IsAt(P(s, r).phase, true, Acquired)
    ensures var t := Step(s, Advance(r, Succeeds)).procs[r].phase;
            t.Holding? && (t.stage == Absent <==> P(s, r).phase.name !in s.containers)
                       && (t.stage == Found <==> P(s, r).phase.name in s.containers)
  {
  }

  /** A runtime's claim on a container ends by exactly two of its own steps: the
      release is skipped, or the runtime, under the container's lock, tries to remove
      its lease file. */
  lemma ClaimEndsExactly(s: State, a: Action, r: nat, name: string)
    requires Inv(s) && Enabled(s, a) && r in s.procs && name in Claims(s.procs[r])
    ensures name !in Claims(P(Step(s, a), r))
            <==> a == SkipRelease(r, name)
                 || (a.Advance? && a.r == r && IsAt(s.procs[r].phase, false, Acquired) && s.procs[r].phase.name == name)
  {
    assert ProcFits(s, r, s.procs[r]);
    if ByRuntime(a) && a.r == r {
      if a.Advance? {
        AdvanceEndsClaim(s, r, a.outcome, name);
      } else {
        OtherStepEndsClaim(s, a, name);
      }
    } else if ByRuntime(a) {
      OnlyMoverMoves(s, a);
    }
  }

  lemma OtherStepEndsClaim(s: State, a: Action, name: string)
    requires ByRuntime(a) && !a.Advance? && Enabled(s, a) && a.r in s.procs && PhaseFits(s, s.procs[a.r])
    requires name in Claims(s.procs[a.r])
    ensures name !in Claims(P(Step(s, a), a.r)) <==> a == SkipRelease(a.r, name)
  {
  }

  lemma AdvanceEndsClaim(s: State, r: nat, outcome: Outcome, name: string)
    requires Enabled(s, Advance(r, outcome)) && r in s.procs && PhaseFits(s, s.procs[r]) && name in Claims(s.procs[r])
    ensures name !in Claims(P(Step(s, Advance(r, outcome)), r))
            <==> IsAt(s.procs[r].phase, false, Acquired) && s.procs[r].phase.name == name
  {
    if !AtEnd(s.procs[r].phase) {
      if s.procs[r].phase.job.Ensure? {
        EnsureKeepsClaims(s, r, outcome, name);
      } else {
        ReleaseEndsClaim(s, r, outcome, name);
      }
    }
  }

  lemma EnsureKeepsClaims(s: State, r: nat, outcome: Outcome, name: string)
    requires r in s.procs && s.procs[r].phase.Holding? && s.procs[r].phase.job.Ensure? && name in s.procs[r].held
    ensures name in Claims(P(EnsureStep(s, r, s.procs[r].phase, outcome), r))
  {
  }

  lemma ReleaseEndsClaim(s: State, r: nat, outcome: Outcome, name: string)
    requires r in s.procs && s.procs[r].phase.Holding? && s.procs[r].phase.job.Release? && PhaseFits(s, s.procs[r])
    requires name in Claims(s.procs[r])
    ensures name !in Claims(P(ReleaseStep(s, r, s.procs[r].phase, outcome), r))
            <==> s.procs[r].phase.stage == Acquired && s.procs[r].phase.name == name
  {
  }
}
