/**
 Acquire, warm, release, sync, create, remove and garbage collection as step machines that run side by
 side (internal/lifecycle/acquire_service.go, warm_service.go, release_service.go, gc_service.go,
 internal/cli/create_command.go, remove_command.go and the lock around internal/dependencies/ensure.go).

 Each agent is one running command. It takes directory locks, reads the state, calls lifecycle
 transitions and drives Git and processes, in the order the code does; external steps succeed or
 fail freely, and an agent may crash anywhere. Directory locks are mutexes that a crash frees, which
 is what DirectoryLock.StepsLikeAMutex proves of them. Git keeps a lock of its own on a worktree, which
 outlives the command that set it: Git adds a worktree only where there is none, locks only one that is
 there, and removes only one that is there and unlocked.
 */
module Handoff {
  import opened Common
  import opened RukState
  import opened Transitions
  import opened Lifecycle
  import opened Fences
  import opened Ownership
  import opened Collection

  // ---------------------------------------------------------------------------------------------
  // Locks
  // ---------------------------------------------------------------------------------------------

  datatype Lock = Primary | Pool | Warm | Handover(path: Path) | Registry | StateFile

  function Rank(l: Lock): nat {
    match l
    case Primary => 0
    case Pool => 1
    case Warm => 2
    case Handover(_) => 3
    case Registry => 4
    case StateFile => 5
  }

  // ---------------------------------------------------------------------------------------------
  // Where a command stands
  // ---------------------------------------------------------------------------------------------

  datatype GcRun = GcRun(cutoff: int, now: int, force: bool)

  datatype Stage =
    | Rest
    // acquire
    | WantsPrimary
    | WantsPool
    | Selecting
    | WantsReserved(path: Path)
    | Reserving(path: Path)
    | LostReservation
    | Reserved(path: Path, id: Id, operation: Id)
    | WantsFresh(path: Path)
    | Beginning(path: Path)
    | CreatingFresh(path: Path, operation: Id)
    | MadeFresh(path: Path, operation: Id)
    | PreparingFresh(path: Path, operation: Id)
    | HandingOff(path: Path, id: Id, operation: Id)
    | HandedOff(path: Path)
    // warm
    | WarmWantsPool
    | WarmWantsWarm
    | WarmIdle
    | WarmCreating(path: Path, operation: Id)
    | WarmMade(path: Path, operation: Id)
    | WarmPreparing(path: Path, operation: Id)
    | WarmWantsHandover(path: Path, operation: Id)
    | WarmInstalling(path: Path, operation: Id)
    // garbage collection
    | GcWantsPool(run: GcRun)
    | GcWantsWarm(run: GcRun)
    | GcIdle(run: GcRun)
    | GcWantsHandover(run: GcRun, path: Path, reason: Reason)
    | GcLocked(run: GcRun, path: Path, reason: Reason)
    | GcChosen(run: GcRun, path: Path, reason: Reason, seen: Workspace, gone: set<Process>)
    | GcFenced(run: GcRun, path: Path, operation: Id)
    | GcUnlocked(run: GcRun, path: Path, operation: Id)
    | GcWorktreeGone(run: GcRun, path: Path, operation: Id)
    | GcTreeGone(run: GcRun, path: Path, operation: Id)
    | GcFinished(run: GcRun, path: Path)
    // release, by itself or inside garbage collection
    | ReturnWants(path: Path, id: Id)
    | ReturnReady(path: Path, id: Id)
    | Draining(sweep: Option<GcRun>, path: Path, id: Id, tracked: seq<Process>, done: nat, gone: set<Process>)
    | Returned(path: Path)
    // sync
    | SyncWants(path: Path)
    | Syncing(path: Path)
    // create
    | CreateWants(path: Path)
    | Creating(path: Path)
    | Created(path: Path)
    // remove
    | RemoveLooks(path: Path)
    | RemoveWants(path: Path)
    | Removing(path: Path)
    | Forgetting(path: Path)

  /** Where it stands inside one state update or port transaction. */
  datatype Inner = Outside | WantsState | InState | WantsRegistry | InRegistry | RegistryWantsState | RegistryInState

  datatype Agent = Agent(stage: Stage, inner: Inner)

  function StageHolds(stage: Stage): set<Lock> {
    match stage
    case WantsPool => {Primary}
    case Selecting => {Primary, Pool}
    case WantsReserved(_) => {Primary, Pool}
    case Reserving(p) => {Primary, Pool, Handover(p)}
    case LostReservation => {Primary, Pool}
    case Reserved(p, _, _) => {Primary, Pool, Handover(p)}
    case WantsFresh(_) => {Primary}
    case Beginning(p) => {Primary, Handover(p)}
    case CreatingFresh(p, _) => {Primary, Handover(p)}
    case MadeFresh(p, _) => {Primary, Handover(p)}
    case PreparingFresh(p, _) => {Primary, Handover(p)}
    case HandingOff(p, _, _) => {Primary, Handover(p)}
    case HandedOff(p) => {Primary, Handover(p)}
    case WarmWantsWarm => {Pool}
    case WarmIdle => {Pool, Warm}
    case WarmCreating(_, _) => {Pool, Warm}
    case WarmMade(_, _) => {Pool, Warm}
    case WarmPreparing(_, _) => {Pool, Warm}
    case WarmWantsHandover(_, _) => {Pool, Warm}
    case WarmInstalling(p, _) => {Pool, Warm, Handover(p)}
    case GcWantsWarm(_) => {Pool}
    case GcIdle(_) => {Pool, Warm}
    case GcWantsHandover(_, _, _) => {Pool, Warm}
    case GcLocked(_, p, _) => {Pool, Warm, Handover(p)}
    case GcChosen(_, p, _, _, _) => {Pool, Warm, Handover(p)}
    case GcFenced(_, p, _) => {Pool, Warm, Handover(p)}
    case GcUnlocked(_, p, _) => {Pool, Warm, Handover(p)}
    case GcWorktreeGone(_, p, _) => {Pool, Warm, Handover(p)}
    case GcTreeGone(_, p, _) => {Pool, Warm, Handover(p)}
    case GcFinished(_, p) => {Pool, Warm, Handover(p)}
    case ReturnReady(p, _) => {Handover(p)}
    case Draining(sweep, p, _, _, _, _) => if sweep.Some? then {Pool, Warm, Handover(p)} else {Handover(p)}
    case Returned(p) => {Handover(p)}
    case Syncing(p) => {Handover(p)}
    case Creating(p) => {Handover(p)}
    case Created(p) => {Handover(p)}
    case Removing(p) => {Handover(p)}
    case Forgetting(p) => {Handover(p)}
    case _ => {}
  }

  function StageWants(stage: Stage): Option<Lock> {
    match stage
    case WantsPrimary => Some(Primary)
    case WantsPool => Some(Pool)
    case WantsReserved(p) => Some(Handover(p))
    case WantsFresh(p) => Some(Handover(p))
    case WarmWantsPool => Some(Pool)
    case WarmWantsWarm => Some(Warm)
    case WarmWantsHandover(p, _) => Some(Handover(p))
    case GcWantsPool(_) => Some(Pool)
    case GcWantsWarm(_) => Some(Warm)
    case GcWantsHandover(_, p, _) => Some(Handover(p))
    case ReturnWants(p, _) => Some(Handover(p))
    case SyncWants(p) => Some(Handover(p))
    case CreateWants(p) => Some(Handover(p))
    case RemoveWants(p) => Some(Handover(p))
    case _ => None
  }

  /** The stage a wanted lock leads to. */
  function Granted(stage: Stage): Stage
    requires StageWants(stage).Some?
  {
    match stage
    case WantsPrimary => WantsPool
    case WantsPool => Selecting
    case WantsReserved(p) => Reserving(p)
    case WantsFresh(p) => Beginning(p)
    case WarmWantsPool => WarmWantsWarm
    case WarmWantsWarm => WarmIdle
    case WarmWantsHandover(p, o) => WarmInstalling(p, o)
    case GcWantsPool(run) => GcWantsWarm(run)
    case GcWantsWarm(run) => GcIdle(run)
    case GcWantsHandover(run, p, reason) => GcLocked(run, p, reason)
    case ReturnWants(p, id) => ReturnReady(p, id)
    case SyncWants(p) => Syncing(p)
    case CreateWants(p) => Creating(p)
    case RemoveWants(p) => Removing(p)
  }

  function InnerHolds(inner: Inner): set<Lock> {
    match inner
    case InState => {StateFile}
    case InRegistry => {Registry}
    case RegistryWantsState => {Registry}
    case RegistryInState => {Registry, StateFile}
    case _ => {}
  }

  function InnerWants(inner: Inner): Option<Lock> {
    match inner
    case WantsState => Some(StateFile)
    case WantsRegistry => Some(Registry)
    case RegistryWantsState => Some(StateFile)
    case _ => None
  }

  function InnerGranted(inner: Inner): Inner
    requires InnerWants(inner).Some?
  {
    match inner
    case WantsState => InState
    case WantsRegistry => InRegistry
    case RegistryWantsState => RegistryInState
  }

  function Holds(a: Agent): set<Lock> { StageHolds(a.stage) + InnerHolds(a.inner) }

  function Wants(a: Agent): Option<Lock> {
    if InnerWants(a.inner).Some? then InnerWants(a.inner) else StageWants(a.stage)
  }

  // ---------------------------------------------------------------------------------------------
  // The system
  // ---------------------------------------------------------------------------------------------

  /** `worktrees` are the directories Git knows, `locked` those under Git's own lock; `agents` are the
      commands still running. `spent` are the paths that ever were a worktree or had a record: history,
      kept by no code. */
  datatype System = System(world: World, worktrees: set<Path>, locked: set<Path>, spent: set<Path>, agents: map<nat, Agent>)

  /** The lifecycle calls a command makes where it stands. */
  ghost predicate Calls(stage: Stage, c: Command, world: World) {
    match stage
    case Rest => Bystanding(c)
    case Reserving(p) => c.Reserve? && c.requested == Some(p)
    case Beginning(p) => c.BeginPreparation? && c.path == p
    case CreatingFresh(p, o) => EndsPreparation(c, p, o) && c.edit.FinishPreparation? && c.edit.verdict.Some?
    case MadeFresh(p, o) => EndsPreparation(c, p, o) && c.edit.FinishPreparation? && c.edit.verdict.Some?
    case PreparingFresh(p, o) =>
      || Installs(c, p, ForPreparation(o))
      || (EndsPreparation(c, p, o) && (c.edit.FinishPreparation? ==> c.edit.verdict.Some?))
    case HandingOff(p, id, o) =>
      || Installs(c, p, ForAssignment(id))
      || (c.For? && c.id == id &&
            (c.edit.PublishPorts? || ((c.edit.RefreshLease? || c.edit.RecordSuccess? || c.edit.Retain?) && c.edit.operation == o)))
    case WarmIdle => c.BeginPreparation?
    case WarmCreating(p, o) => EndsPreparation(c, p, o) && c.edit.FinishPreparation? && c.edit.verdict.Some?
    case WarmMade(p, o) => EndsPreparation(c, p, o) && c.edit.FinishPreparation? && c.edit.verdict.Some?
    case WarmPreparing(p, o) => EndsPreparation(c, p, o) && c.edit.FinishPreparation?
    case WarmInstalling(p, o) => Installs(c, p, ForPreparation(o))
    case Syncing(p) => Synchronises(c, p)
    case Created(p) => Synchronises(c, p)
    case GcChosen(run, p, reason, seen, gone) =>
      || (c.At? && c.path == p && seen.assignment.None? && (c.edit == BeginCollection(seen.updatedAt) || DropsGone(c.edit, seen, gone)))
      || (seen.assignment.Some? && reason.ExpiredAssignment? && run.force &&
            c == For(seen.assignment.value.id, BeginReturn(None, Some(run.now), Some(seen.updatedAt))))
      || (seen.assignment.Some? && reason.AbandonedAcquisition? && seen.operation.Some? &&
            c == For(seen.assignment.value.id, BeginReturn(seen.operation, None, Some(seen.updatedAt))))
    case GcFenced(_, p, o) => c == At(p, CancelCollection(o))
    case GcWorktreeGone(_, p, _) => c == DropTree(p)
    case GcTreeGone(_, p, o) => c == DeleteRecord(p, o)
    case ReturnReady(p, id) => c.For? && c.id == id && c.edit.BeginReturn?
    case Forgetting(p) => c == DropTree(p)
    case Draining(_, p, id, tracked, done, gone) => c.For? && c.id == id && Drains(c.edit, tracked, done, gone)
    case _ => false
  }

  predicate Synchronises(c: Command, p: Path) {
    || c.RecordMetric?
    || (c.PutTree? && c.path == p)
    || (c.At? && c.path == p && (c.edit.TrackInstaller? || c.edit.UntrackInstaller?))
  }

  /** Collection untracks the processes of an unassigned workspace in order, each after it was observed gone. */
  predicate DropsGone(e: Edit, seen: Workspace, gone: set<Process>) {
    && e.RemoveUnassigned? && e.lifecycle == seen.lifecycle && e.marker == seen.operation && e.seenUpdatedAt == seen.updatedAt
    && seen.processes != [] && seen.processes[0] in gone
    && e.pid == seen.processes[0].pid && e.startedAt == seen.processes[0].startedAt
  }

  /** Records are removed in order, each after its process was observed gone; then the return ends. */
  predicate Drains(e: Edit, tracked: seq<Process>, done: nat, gone: set<Process>) {
    match e
    case RemoveProcess(pid, startedAt) =>
      done < |tracked| && tracked[done] in gone && pid == tracked[done].pid && startedAt == tracked[done].startedAt
    case FinishReturn => done == |tracked|
    case CancelReturn(_) => true
    case _ => false
  }

  /** Calls any command may make at any time, given an assignment identifier. */
  predicate Bystanding(c: Command) {
    || c.RecordMetric?
    || (c.For? && (c.edit.Renew? || c.edit.BeginActivity? || c.edit.RefreshActivity? || c.edit.FinishActivity?
                   || c.edit.AddProcess? || c.edit.RemoveProcess?))
  }

  predicate Installs(c: Command, p: Path, fence: InstallerFence) {
    || c.RecordMetric?
    || (c.PutTree? && c.path == p)
    || (c.At? && c.path == p && (c.edit.TrackInstaller? || c.edit.UntrackInstaller?) && c.edit.fence == fence)
  }

  predicate EndsPreparation(c: Command, p: Path, o: Id) {
    c.At? && c.path == p && (c.edit.MarkAssigned? || c.edit.FinishPreparation?) && c.edit.operation == o
  }

  /** Where a call leads, from its outcome. */
  ghost function Then(stage: Stage, c: Command, env: Env, next: Result<State, Refusal>): Stage {
    match stage
    case Reserving(p) =>
      if next.Ok? && p in next.value.workspaces && next.value.workspaces[p].Carries(env.first) then Reserved(p, env.first, env.second)
      else LostReservation
    case Beginning(p) => if next.Ok? then CreatingFresh(p, env.first) else HandedOff(p)
    case CreatingFresh(p, _) => if next.Ok? then HandedOff(p) else stage
    case MadeFresh(p, _) => if next.Ok? then HandedOff(p) else stage
    case PreparingFresh(p, o) =>
      if next.Ok? && c.At? && c.edit.MarkAssigned? then HandingOff(p, env.first, env.second)
      else if next.Ok? && c.At? && c.edit.FinishPreparation? then HandedOff(p)
      else stage
    case HandingOff(p, _, _) =>
      if next.Ok? && c.For? && (c.edit.RecordSuccess? || c.edit.Retain?) then HandedOff(p) else stage
    case WarmIdle => if next.Ok? && c.BeginPreparation? then WarmCreating(c.path, env.first) else WarmIdle
    case WarmCreating(_, _) => if next.Ok? then WarmIdle else stage
    case WarmMade(_, _) => if next.Ok? then WarmIdle else stage
    case WarmPreparing(_, _) => if next.Ok? then WarmIdle else stage
    case GcChosen(run, p, reason, seen, gone) =>
      if next.Err? || p !in next.value.workspaces then GcFinished(run, p)
      else if c.For? then
        Draining(Some(run), p, c.id, next.value.workspaces[p].processes, 0, {})
      else if c.At? && c.edit.BeginCollection? && next.value.workspaces[p].operation.Some? then
        GcFenced(run, p, next.value.workspaces[p].operation.value)
      else GcChosen(run, p, reason, next.value.workspaces[p], gone)
    case GcFenced(run, p, _) => GcFinished(run, p)
    case GcWorktreeGone(run, p, o) => if next.Ok? then GcTreeGone(run, p, o) else GcFinished(run, p)
    case GcTreeGone(run, p, _) => GcFinished(run, p)
    case ReturnReady(p, id) =>
      if next.Ok? && p in next.value.workspaces then Draining(None, p, id, next.value.workspaces[p].processes, 0, {})
      else Returned(p)
    case Draining(sweep, p, id, tracked, done, gone) =>
      if c.For? && c.edit.RemoveProcess? then
        (if next.Ok? then Draining(sweep, p, id, tracked, done + 1, gone) else stage)
      else if c.For? && c.edit.FinishReturn? && next.Err? then stage
      else if sweep.None? then Returned(p)
      else if c.For? && c.edit.FinishReturn? && p in next.value.workspaces then
        GcChosen(sweep.value, p, UnusedCapacity, next.value.workspaces[p], {})
      else GcFinished(sweep.value, p)
    case Forgetting(_) => Rest
    case _ => stage
  }

  ghost predicate Classified(world: World, run: GcRun, p: Path, reason: Reason) {
    p in world.state.workspaces && Classify(world.state.workspaces[p], run.cutoff, run.now, true) == Ok(Some(reason))
  }

  ghost predicate CarriedAt(world: World, p: Path, id: Id) {
    p in world.state.workspaces && world.state.workspaces[p].Carries(id)
  }

  /** Moves that only read the state, observe the outside world, let go of locks, or give up. */
  ghost predicate Advances(s: System, stage: Stage, to: Stage) {
    match stage
    case Rest =>
      to.WantsPrimary? || to.WarmWantsPool? || to.GcWantsPool? || to.SyncWants? || to.CreateWants?
      || (to.ReturnWants? && CarriedAt(s.world, to.path, to.id))
      || (to.RemoveLooks? && to.path in s.worktrees)
    case Selecting => (to.WantsReserved? && Wanted(s.world.state.workspaces, None, to.path)) || to.WantsFresh? || to.Rest?
    case LostReservation => to.WantsPool? || to.Rest?
    case Reserved(p, id, o) => to == HandingOff(p, id, o)
    case CreatingFresh(p, _) => to == HandedOff(p)
    case MadeFresh(p, _) => to == HandedOff(p)
    case PreparingFresh(p, _) => to == HandedOff(p)
    case HandingOff(p, _, _) => to == HandedOff(p)
    case HandedOff(_) => to.Rest?
    case WarmIdle => to.Rest?
    case WarmCreating(_, _) => to.Rest?
    case WarmMade(_, _) => to.Rest?
    case WarmPreparing(p, o) => to == WarmWantsHandover(p, o) || to.Rest?
    case WarmInstalling(p, o) => to == WarmPreparing(p, o)
    case GcIdle(run) =>
      to.Rest? || (to.GcWantsHandover? && to.run == run && Classified(s.world, run, to.path, to.reason)
                   && (to.reason.ExpiredAssignment? ==> run.force))
    case GcLocked(run, p, reason) =>
      to == GcFinished(run, p)
      || (Classified(s.world, run, p, reason) && to == GcChosen(run, p, reason, s.world.state.workspaces[p], {}))
    case GcChosen(run, p, reason, seen, gone) =>
      || to == GcFinished(run, p)
      || (seen.assignment.None? && seen.processes != [] && to == GcChosen(run, p, reason, seen, gone + {seen.processes[0]}))
    case GcFenced(run, p, o) => to == GcFinished(run, p) || (p !in s.worktrees && to == GcWorktreeGone(run, p, o))
    case GcUnlocked(run, p, _) => to == GcFinished(run, p)
    case GcWorktreeGone(run, p, _) => to == GcFinished(run, p)
    case GcTreeGone(run, p, _) => to == GcFinished(run, p)
    case GcFinished(run, _) => to == GcIdle(run)
    case ReturnReady(_, _) => to.Rest?
    case Draining(sweep, p, id, tracked, done, gone) =>
      || (done < |tracked| && to == Draining(sweep, p, id, tracked, done, gone + {tracked[done]}))
      || to == (if sweep.Some? then GcFinished(sweep.value, p) else Returned(p))
    case Returned(_) => to.Rest?
    case Syncing(_) => to.Rest?
    case Creating(_) => to.Rest?
    case Created(_) => to.Rest?
    case RemoveLooks(p) => to.Rest? || (p !in s.world.state.workspaces && to == RemoveWants(p))
    case Removing(_) => to.Rest?
    case Forgetting(_) => to.Rest?
    case _ => false
  }

  datatype Action =
    | Enter(a: nat)
    | Crash(a: nat)
    | Advance(a: nat, to: Stage)
    | Take(a: nat)
    | Open(a: nat, inner: Inner)
    | Close(a: nat)
    | Update(a: nat, command: Command, env: Env)
    | Git(a: nat, op: GitOp)

  datatype GitOp = Add | Lock | Unlock | Remove

  /** The Git commands a command runs where it stands, on the path it works on. */
  predicate Drives(stage: Stage, op: GitOp) {
    match op
    case Add => stage.CreatingFresh? || stage.WarmCreating? || stage.Creating?
    case Lock => stage.MadeFresh? || stage.WarmMade? || stage.GcUnlocked?
    case Unlock => stage.GcFenced?
    case Remove => stage.GcUnlocked? || stage.Removing? || stage.Created?
  }

  predicate GitAllows(s: System, p: Path, op: GitOp) {
    match op
    case Add => p !in s.worktrees
    case Lock => p in s.worktrees
    case Unlock => p in s.worktrees
    case Remove => p in s.worktrees && p !in s.locked
  }

  function Worktrees(worktrees: set<Path>, p: Path, op: GitOp): set<Path> {
    match op
    case Add => worktrees + {p}
    case Remove => worktrees - {p}
    case _ => worktrees
  }

  function Locked(locked: set<Path>, p: Path, op: GitOp): set<Path> {
    match op
    case Lock => locked + {p}
    case Unlock => locked - {p}
    case _ => locked
  }

  function AfterGit(stage: Stage, op: GitOp): Stage
    requires Drives(stage, op)
  {
    match (stage, op)
    case (CreatingFresh(p, o), _) => MadeFresh(p, o)
    case (MadeFresh(p, o), _) => PreparingFresh(p, o)
    case (WarmCreating(p, o), _) => WarmMade(p, o)
    case (WarmMade(p, o), _) => WarmPreparing(p, o)
    case (Creating(p), _) => Created(p)
    case (GcFenced(run, p, o), _) => GcUnlocked(run, p, o)
    case (GcUnlocked(run, p, o), Lock) => GcFenced(run, p, o)
    case (GcUnlocked(run, p, o), _) => GcWorktreeGone(run, p, o)
    case (Removing(p), _) => Forgetting(p)
    case _ => Rest
  }

  ghost predicate Free(s: System, l: Lock) { forall a :: a in s.agents ==> l !in Holds(s.agents[a]) }

  ghost predicate Enabled(s: System, act: Action) {
    match act
    case Enter(a) => a !in s.agents
    case Crash(a) => a in s.agents
    case Advance(a, to) => a in s.agents && s.agents[a].inner.Outside? && Advances(s, s.agents[a].stage, to)
    case Take(a) => a in s.agents && Wants(s.agents[a]).Some? && Free(s, Wants(s.agents[a]).value)
    case Open(a, inner) =>
      && a in s.agents && StageWants(s.agents[a].stage).None?
      && ((s.agents[a].inner.Outside? && (inner.WantsState? || inner.WantsRegistry?))
          || (s.agents[a].inner.InRegistry? && inner.RegistryWantsState?))
    case Close(a) => a in s.agents && InnerHolds(s.agents[a].inner) != {}
    case Update(a, c, env) =>
      && a in s.agents && StageWants(s.agents[a].stage).None? && Calls(s.agents[a].stage, c, s.world)
      && (if c.For? && c.edit.PublishPorts? then s.agents[a].inner.RegistryInState? else s.agents[a].inner.InState?)
      && FreshIds(s.world, env) && (c.BeginPreparation? ==> c.path !in s.spent)
    case Git(a, op) => a in s.agents && s.agents[a].inner.Outside? && Drives(s.agents[a].stage, op) && GitAllows(s, s.agents[a].stage.path, op)
  }

  ghost function Next(s: System, act: Action): System
    requires Enabled(s, act)
  {
    match act
    case Enter(a) => s.(agents := s.agents[a := Agent(Rest, Outside)])
    case Crash(a) => s.(agents := s.agents - {a})
    case Advance(a, to) => s.(agents := s.agents[a := Agent(to, Outside)])
    case Take(a) =>
      var agent := s.agents[a];
      s.(agents := s.agents[a := if InnerWants(agent.inner).Some? then agent.(inner := InnerGranted(agent.inner))
                                 else agent.(stage := Granted(agent.stage))])
    case Open(a, inner) => s.(agents := s.agents[a := s.agents[a].(inner := inner)])
    case Close(a) => s.(agents := s.agents[a := s.agents[a].(inner := Outside)])
    case Update(a, c, env) =>
      s.(world := Step(s.world, c, env), spent := if c.BeginPreparation? then s.spent + {c.path} else s.spent,
         agents := s.agents[a := Agent(Then(s.agents[a].stage, c, env, Apply(s.world.state, c, env)), Outside)])
    case Git(a, op) =>
      var stage := s.agents[a].stage;
      s.(worktrees := Worktrees(s.worktrees, stage.path, op), locked := Locked(s.locked, stage.path, op),
         spent := if op.Add? then s.spent + {stage.path} else s.spent,
         agents := s.agents[a := Agent(AfterGit(stage, op), Outside)])
  }
}
