/**
 What every interleaving of acquire, warm, release, sync, create, remove and garbage collection keeps: work in
 progress is never collected, live leases are never taken, releases drain, records are deleted last,
 and no set of commands waits in a cycle.
 */
module HandoffSafety {
  import opened Common
  import opened RukState
  import opened Transitions
  import opened Lifecycle
  import opened Fences
  import opened Ownership
  import opened Collection
  import opened Handoff

  // ---------------------------------------------------------------------------------------------
  // Locks: exclusive, taken in rank order, and never waited for in a cycle
  // ---------------------------------------------------------------------------------------------

  ghost predicate LocksExclusive(s: System) {
    forall a, b :: a in s.agents && b in s.agents && a != b ==> Holds(s.agents[a]) !! Holds(s.agents[b])
  }

  predicate ShapedAgent(agent: Agent) { !agent.inner.Outside? ==> StageWants(agent.stage).None? }

  ghost predicate Shaped(s: System) { forall a :: a in s.agents ==> ShapedAgent(s.agents[a]) }

  /** Every path takes locks in strictly increasing rank. */
  lemma WantsAboveHeld(agent: Agent, l: Lock, m: Lock)
    requires ShapedAgent(agent) && Wants(agent) == Some(l) && m in Holds(agent)
    ensures Rank(m) < Rank(l)
  {
  }

  ghost predicate Waits(s: System, a: nat) {
    a in s.agents && Wants(s.agents[a]).Some? && !Free(s, Wants(s.agents[a]).value)
  }

  /** No cyclic wait: following any waiting command to the holder of what it waits for ends at a
      command that holds a lock and waits for nothing. */
  lemma {:induction false} WaitingEnds(s: System, a: nat) returns (runner: nat)
    requires Shaped(s) && Waits(s, a)
    ensures runner in s.agents && !Waits(s, runner) && Holds(s.agents[runner]) != {}
    decreases 5 - Rank(Wants(s.agents[a]).value)
  {
    var l := Wants(s.agents[a]).value;
    var b :| b in s.agents && l in Holds(s.agents[b]);
    if Waits(s, b) {
      WantsAboveHeld(s.agents[b], Wants(s.agents[b]).value, l);
      runner := WaitingEnds(s, b);
    } else {
      runner := b;
    }
  }

  predicate Sweeps(stage: Stage) {
    stage.GcIdle? || stage.GcLocked? || stage.GcChosen? || stage.GcFenced? || stage.GcUnlocked? || stage.GcWorktreeGone? || stage.GcTreeGone? ||
    stage.GcFinished? || stage.Draining?
  }

  lemma DrainLetsGo(s: System, stage: Stage, to: Stage)
    requires Advances(s, stage, to) && stage.Draining?
    ensures StageHolds(to) <= StageHolds(stage)
  {
  }

  lemma SweepLetsGo(s: System, stage: Stage, to: Stage)
    requires Advances(s, stage, to) && Sweeps(stage)
    ensures StageHolds(to) <= StageHolds(stage)
  {
    if stage.Draining? { DrainLetsGo(s, stage, to); }
  }

  lemma AdvanceLetsGo(s: System, stage: Stage, to: Stage)
    requires Advances(s, stage, to)
    ensures StageHolds(to) <= StageHolds(stage)
  {
    if Sweeps(stage) { SweepLetsGo(s, stage, to); }
  }

  lemma SweepCallLetsGo(stage: Stage, c: Command, env: Env, next: Result<State, Refusal>, world: World)
    requires Calls(stage, c, world) && Sweeps(stage)
    ensures StageHolds(Then(stage, c, env, next)) <= StageHolds(stage)
  {
  }

  lemma CallLetsGo(stage: Stage, c: Command, env: Env, next: Result<State, Refusal>, world: World)
    requires Calls(stage, c, world)
    ensures StageHolds(Then(stage, c, env, next)) <= StageHolds(stage)
  {
    if Sweeps(stage) { SweepCallLetsGo(stage, c, env, next, world); }
  }

  lemma TakingAddsOne(agent: Agent)
    requires ShapedAgent(agent) && Wants(agent).Some?
    ensures InnerWants(agent.inner).None? ==>
              agent.inner.Outside? && StageHolds(Granted(agent.stage)) == StageHolds(agent.stage) + {Wants(agent).value}
    ensures InnerWants(agent.inner).Some? ==>
              InnerHolds(InnerGranted(agent.inner)) == InnerHolds(agent.inner) + {Wants(agent).value}
  {
  }

  /** What an action does to the agent it moves: its locks shrink, or grow by one free lock. */
  lemma LocksMove(s: System, act: Action, a: nat)
    requires Shaped(s) && Enabled(s, act) && a in s.agents && a in Next(s, act).agents
    ensures ShapedAgent(Next(s, act).agents[a])
    ensures Holds(Next(s, act).agents[a]) <= Holds(s.agents[a]) ||
            (act == Take(a) && Wants(s.agents[a]).Some? && Free(s, Wants(s.agents[a]).value) &&
             Holds(Next(s, act).agents[a]) == Holds(s.agents[a]) + {Wants(s.agents[a]).value})
  {
    match act
    case Advance(b, to) => AdvanceLetsGo(s, s.agents[b].stage, to);
    case Take(b) => if a == b { TakingAddsOne(s.agents[b]); }
    case Update(b, c, env) => CallLetsGo(s.agents[b].stage, c, env, Apply(s.world.state, c, env), s.world);
    case Git(b, op) => GitLetsGo(s.agents[b].stage, op);
    case _ =>
  }

  lemma GitLetsGo(stage: Stage, op: GitOp)
    requires Drives(stage, op)
    ensures StageHolds(AfterGit(stage, op)) <= StageHolds(stage)
  {
  }

  lemma LocksStep(s: System, act: Action)
    requires LocksExclusive(s) && Shaped(s) && Enabled(s, act)
    ensures LocksExclusive(Next(s, act)) && Shaped(Next(s, act))
  {
    var s' := Next(s, act);
    forall a | a in s'.agents ensures ShapedAgent(s'.agents[a]) {
      if a in s.agents { LocksMove(s, act, a); }
    }
    forall a, b | a in s'.agents && b in s'.agents && a != b ensures Holds(s'.agents[a]) !! Holds(s'.agents[b]) {
      if a in s.agents && b in s.agents {
        LocksMove(s, act, a);
        LocksMove(s, act, b);
      }
    }
  }

  // ---------------------------------------------------------------------------------------------
  // Work in progress
  // ---------------------------------------------------------------------------------------------

  /** The workspace a command has work in progress on. */
  function Claim(stage: Stage): Option<Path> {
    match stage
    case CreatingFresh(p, _) => Some(p)
    case MadeFresh(p, _) => Some(p)
    case PreparingFresh(p, _) => Some(p)
    case Reserved(p, _, _) => Some(p)
    case HandingOff(p, _, _) => Some(p)
    case WarmCreating(p, _) => Some(p)
    case WarmMade(p, _) => Some(p)
    case WarmPreparing(p, _) => Some(p)
    case WarmWantsHandover(p, _) => Some(p)
    case WarmInstalling(p, _) => Some(p)
    case GcFenced(_, p, _) => Some(p)
    case GcUnlocked(_, p, _) => Some(p)
    case GcWorktreeGone(_, p, _) => Some(p)
    case GcTreeGone(_, p, _) => Some(p)
    case Draining(_, p, _, _, _, _) => Some(p)
    case _ => None
  }

  /** A preparation this command opened and still runs. */
  predicate Prepares(stage: Stage) { Opens(stage) || Installing(stage) }

  /** Up to creating and locking the worktree. */
  predicate Opens(stage: Stage) { stage.CreatingFresh? || stage.MadeFresh? || stage.WarmCreating? || stage.WarmMade? }

  /** Its own command has just made the worktree, and Git's lock is not on it. */
  predicate Made(stage: Stage) { stage.MadeFresh? || stage.WarmMade? || stage.Created? }

  /** A removal that found the path, or found it without a record. */
  predicate Removes(stage: Stage) { stage.RemoveWants? || stage.Removing? || stage.Forgetting? }

  /** Past creating and locking the worktree. */
  predicate Installing(stage: Stage) {
    stage.PreparingFresh? || stage.WarmPreparing? || stage.WarmWantsHandover? || stage.WarmInstalling?
  }

  predicate HandsOff(stage: Stage) { stage.Reserved? || stage.HandingOff? }

  predicate Collects(stage: Stage) { stage.GcFenced? || stage.GcUnlocked? || stage.GcWorktreeGone? || stage.GcTreeGone? }

  predicate AssignedWith(w: Workspace, id: Id, o: Id) { w.lifecycle.Assigned? && w.Carries(id) && w.operation == Some(o) }

  ghost predicate DrainOk(w: Workspace, id: Id, tracked: seq<Process>, done: nat, gone: set<Process>) {
    && w.lifecycle.Returning? && w.Carries(id)
    && (forall r :: r in w.processes ==> r in tracked)
    && done <= |tracked|
    && (forall i :: 0 <= i < done ==> tracked[i] in gone)
  }

  /** The record is as the command left it. */
  ghost predicate RecordAsLeft(stage: Stage, ws: map<Path, Workspace>) {
    Claim(stage).Some? ==>
      && stage.path in ws
      && (Prepares(stage) ==> PreparingWith(ws[stage.path], stage.operation))
      && (HandsOff(stage) ==> AssignedWith(ws[stage.path], stage.id, stage.operation))
      && (Collects(stage) ==> Collecting(ws[stage.path], stage.operation))
      && (stage.Draining? ==> DrainOk(ws[stage.path], stage.id, stage.tracked, stage.done, stage.gone))
  }

  /** What collection has removed so far stays removed, what a preparation locked stays locked, what a
      command has made is there, and what a removal found without a record never gets one. */
  ghost predicate FilesAsLeft(stage: Stage, s: System) {
    && (Made(stage) ==> stage.path in s.worktrees)
    && (stage.RemoveLooks? || Removes(stage) ==> stage.path in s.spent)
    && (Removes(stage) ==> stage.path !in s.world.state.workspaces)
    && (Installing(stage) ==> stage.path in s.locked)
    && (stage.GcWorktreeGone? || stage.GcTreeGone? ==> stage.path !in s.worktrees)
    && (stage.GcTreeGone? ==> stage.path !in s.world.state.trees)
  }

  /** The assignment a command was told about, or saw, lives nowhere but on the path it locks. */
  ghost predicate OnlyAt(world: World, p: Path, id: Id) {
    id in world.used && forall q :: q in world.state.workspaces && world.state.workspaces[q].Carries(id) ==> q == p
  }

  ghost predicate TargetKnown(stage: Stage, world: World) {
    && (stage.ReturnWants? || stage.ReturnReady? || stage.Draining? || HandsOff(stage) ==> OnlyAt(world, stage.path, stage.id))
    && (stage.GcChosen? && stage.seen.assignment.Some? ==> OnlyAt(world, stage.path, stage.seen.assignment.value.id))
  }

  predicate SameClaim(x: Stage, y: Stage) { Claim(x).Some? && Claim(x) == Claim(y) }

  ghost predicate ClaimsExclusive(s: System) {
    forall a, b :: a in s.agents && b in s.agents && SameClaim(s.agents[a].stage, s.agents[b].stage) ==> a == b
  }

  ghost predicate AgentOk(s: System, stage: Stage) {
    RecordAsLeft(stage, s.world.state.workspaces) && FilesAsLeft(stage, s) && TargetKnown(stage, s.world)
  }

  ghost predicate AgentsOk(s: System) { forall a :: a in s.agents ==> AgentOk(s, s.agents[a].stage) }

  /** Every worktree and every record is on a path that counts as used. */
  ghost predicate PathsKnown(s: System) {
    s.locked <= s.worktrees && s.worktrees <= s.spent && forall p :: p in s.world.state.workspaces ==> p in s.spent
  }

  predicate SameMade(x: Stage, y: Stage) { Made(x) && Made(y) && x.path == y.path }

  /** No worktree was made by two commands. */
  ghost predicate MadeExclusive(s: System) {
    forall a, b :: a in s.agents && b in s.agents && SameMade(s.agents[a].stage, s.agents[b].stage) ==> a == b
  }

  ghost predicate SystemOk(s: System) {
    WorldOk(s.world) && PathsKnown(s) && MadeExclusive(s) && LocksExclusive(s) && Shaped(s) && ClaimsExclusive(s) && AgentsOk(s)
  }

  /** Every claim is backed by the workspace's handoff lock, or by the pool and warm locks. */
  lemma ClaimsAreLocked(stage: Stage)
    requires Claim(stage).Some?
    ensures Handover(stage.path) in StageHolds(stage) || {Pool, Warm} <= StageHolds(stage)
    ensures Handover(stage.path) !in StageHolds(stage) ==> Prepares(stage)
  {
  }

  /** What a command's call says about the command: who may make which call. */
  ghost predicate CallFits(stage: Stage, c: Command, world: World) {
    && Licensed(world, c)
    && (c.At? && c.edit.BeginCollection? ==> Pool in StageHolds(stage) && Handover(c.path) in StageHolds(stage))
    && (c.At? && (c.edit.FinishPreparation? || c.edit.MarkAssigned? || c.edit.CancelCollection?) ==> Claim(stage) == Some(c.path))
    && (c.DeleteRecord? ==> Claim(stage) == Some(c.path))
    && (c.For? && (c.edit.Retain? || c.edit.RecordSuccess? || c.edit.FinishReturn? || c.edit.CancelReturn?) ==>
          Claim(stage).Some? && OnlyAt(world, stage.path, c.id))
    && (c.For? && c.edit.BeginReturn? ==>
          (stage.GcChosen? || stage.ReturnReady?) && OnlyAt(world, stage.path, c.id) && Handover(stage.path) in StageHolds(stage))
    && (c.PutTree? ==> Handover(c.path) in StageHolds(stage))
  }

  lemma CallsFit(s: System, a: nat, c: Command)
    requires WorldOk(s.world) && a in s.agents && AgentOk(s, s.agents[a].stage) && Calls(s.agents[a].stage, c, s.world)
    ensures CallFits(s.agents[a].stage, c, s.world)
  {
    if c.At? && c.edit.CancelCollection? { assert KindOk(s.world, s.world.state.workspaces[c.path]); }
  }

  // ---------------------------------------------------------------------------------------------
  // Another command's call
  // ---------------------------------------------------------------------------------------------

  lemma NeverShare(s: System, a: nat, b: nat, l: Lock)
    requires LocksExclusive(s) && a in s.agents && b in s.agents && a != b
    ensures !(l in StageHolds(s.agents[a].stage) && l in StageHolds(s.agents[b].stage))
  {
    assert !(l in Holds(s.agents[a]) && l in Holds(s.agents[b]));
  }

  /** Two commands at work: different claims, and not both the handoff lock, or the pool lock under
      which warm prepares. */
  predicate Apart(mine: Stage, other: Stage) {
    Claim(mine).Some? ==>
      && Claim(other) != Claim(mine)
      && (Handover(mine.path) !in StageHolds(other) || (Prepares(mine) && Pool !in StageHolds(other)))
  }

  lemma AlwaysApart(s: System, a: nat, b: nat)
    requires LocksExclusive(s) && ClaimsExclusive(s) && a in s.agents && b in s.agents && a != b
    ensures Apart(s.agents[a].stage, s.agents[b].stage)
  {
    if Claim(s.agents[a].stage).Some? {
      ClaimsAreLocked(s.agents[a].stage);
      NeverShare(s, a, b, Handover(s.agents[a].stage.path));
      NeverShare(s, a, b, Pool);
      assert !SameClaim(s.agents[a].stage, s.agents[b].stage);
    }
  }

  /** What each kind of fence says about a call, all at once. */
  ghost predicate FenceKept(stage: Stage, w: Workspace, ws': map<Path, Workspace>, c: Command) {
    if Prepares(stage) then PreparationKept(ws', c, stage.path, stage.operation)
    else if HandsOff(stage) then MarkedKept(w, ws', c, stage.path, stage.operation)
    else if Collects(stage) then CollectingKept(w, ws', c, stage.path, stage.operation)
    else stage.Draining? ==> ReturningKept(w, ws', c, stage.path, stage.id)
  }

  lemma FencesKept(world: World, c: Command, env: Env, stage: Stage)
    requires WorldOk(world) && Licensed(world, c) && Claim(stage).Some? && RecordAsLeft(stage, world.state.workspaces)
    ensures FenceKept(stage, world.state.workspaces[stage.path], Step(world, c, env).state.workspaces, c)
  {
    if Prepares(stage) {
      PreparationLeavesOnlyByItsOperation(world, c, env, stage.path, stage.operation);
    } else if HandsOff(stage) {
      MarkedLeavesOnlyByItsOperation(world, c, env, stage.path, stage.operation);
    } else if Collects(stage) {
      CollectingChangesOnlyByItsOperation(world, c, env, stage.path, stage.operation);
    } else {
      ReturningLeavesOnlyByItsReturn(world, c, env, stage.path, stage.id);
    }
  }

  /** A fence that only its own command's calls can move is not moved by a command apart from it. */
  lemma FenceStands(world: World, c: Command, mine: Stage, other: Stage, ws': map<Path, Workspace>)
    requires Claim(mine).Some? && RecordAsLeft(mine, world.state.workspaces)
    requires Apart(mine, other) && CallFits(other, c, world)
    requires FenceKept(mine, world.state.workspaces[mine.path], ws', c)
    ensures RecordAsLeft(mine, ws')
  {
    if Prepares(mine) {
      PreparationStands(world, c, mine, other, ws');
    } else if HandsOff(mine) {
      HandoffStands(world, c, mine, other, ws');
    } else {
      SweepStands(world, c, mine, other, ws');
    }
  }

  lemma PreparationStands(world: World, c: Command, mine: Stage, other: Stage, ws': map<Path, Workspace>)
    requires Prepares(mine) && RecordAsLeft(mine, world.state.workspaces) && Apart(mine, other) && CallFits(other, c, world)
    requires PreparationKept(ws', c, mine.path, mine.operation)
    ensures RecordAsLeft(mine, ws')
  {
  }

  lemma HandoffStands(world: World, c: Command, mine: Stage, other: Stage, ws': map<Path, Workspace>)
    requires HandsOff(mine) && RecordAsLeft(mine, world.state.workspaces) && Apart(mine, other) && CallFits(other, c, world)
    requires MarkedKept(world.state.workspaces[mine.path], ws', c, mine.path, mine.operation)
    ensures RecordAsLeft(mine, ws')
  {
  }

  lemma SweepStands(world: World, c: Command, mine: Stage, other: Stage, ws': map<Path, Workspace>)
    requires Collects(mine) || mine.Draining?
    requires RecordAsLeft(mine, world.state.workspaces) && Apart(mine, other) && CallFits(other, c, world)
    requires FenceKept(mine, world.state.workspaces[mine.path], ws', c)
    ensures RecordAsLeft(mine, ws')
  {
  }

  lemma TargetsSurvive(world: World, c: Command, env: Env, p: Path, id: Id)
    requires WorldOk(world) && FreshIds(world, env) && OnlyAt(world, p, id)
    ensures OnlyAt(Step(world, c, env), p, id)
  {
    var ws, ws' := world.state.workspaces, Step(world, c, env).state.workspaces;
    forall q | q in ws' && ws'[q].Carries(id) ensures q == p {
      if q in ws {
        RecordStep(world, c, env, q);
        if ws'[q] != ws[q] { EditIdentifiers(ws[q], EditOf(c).value, env); }
      } else {
        DecisionShape(ws, c, env);
      }
    }
  }

  /** Work in progress survives every call another command makes. */
  lemma RecordSurvives(s: System, a: nat, b: nat, c: Command, env: Env)
    requires SystemOk(s) && a in s.agents && b in s.agents && a != b && Calls(s.agents[b].stage, c, s.world)
    ensures RecordAsLeft(s.agents[a].stage, Step(s.world, c, env).state.workspaces)
  {
    var mine, other := s.agents[a].stage, s.agents[b].stage;
    assert AgentOk(s, mine) && AgentOk(s, other);
    if Claim(mine).Some? {
      CallsFit(s, b, c);
      AlwaysApart(s, a, b);
      FencesKept(s.world, c, env, mine);
      FenceStands(s.world, c, mine, other, Step(s.world, c, env).state.workspaces);
    }
  }

  lemma TreesStep(world: World, c: Command, env: Env, p: Path)
    requires p !in world.state.trees && !(c.PutTree? && c.path == p)
    ensures p !in Step(world, c, env).state.trees
  {
  }

  lemma KnownSurvives(world: World, c: Command, env: Env, stage: Stage)
    requires WorldOk(world) && FreshIds(world, env) && TargetKnown(stage, world)
    ensures TargetKnown(stage, Step(world, c, env))
  {
    if stage.ReturnWants? || stage.ReturnReady? || stage.Draining? || HandsOff(stage) {
      TargetsSurvive(world, c, env, stage.path, stage.id);
    } else if stage.GcChosen? && stage.seen.assignment.Some? {
      TargetsSurvive(world, c, env, stage.path, stage.seen.assignment.value.id);
    }
  }

  lemma NobodyStoresTree(s: System, a: nat, b: nat, c: Command)
    requires SystemOk(s) && a in s.agents && b in s.agents && a != b && Calls(s.agents[b].stage, c, s.world)
    requires s.agents[a].stage.GcTreeGone?
    ensures !(c.PutTree? && c.path == s.agents[a].stage.path)
  {
    assert AgentOk(s, s.agents[b].stage);
    CallsFit(s, b, c);
    AlwaysApart(s, a, b);
  }

  /** Preparations are begun on paths nobody used before, so a used path without a record never gets one. */
  lemma UsedPathStaysBare(s: System, c: Command, env: Env, p: Path)
    requires p in s.spent && p !in s.world.state.workspaces && (c.BeginPreparation? ==> c.path !in s.spent)
    ensures p !in Step(s.world, c, env).state.workspaces
  {
    if Apply(s.world.state, c, env).Ok? && Decide(s.world.state.workspaces, c, env).value.Put? {
      DecisionShape(s.world.state.workspaces, c, env);
    }
  }

  lemma FilesSurvive(s: System, a: nat, b: nat, c: Command, env: Env)
    requires SystemOk(s) && a in s.agents && b in s.agents && a != b && Calls(s.agents[b].stage, c, s.world)
    requires FilesAsLeft(s.agents[a].stage, s) && (c.BeginPreparation? ==> c.path !in s.spent)
    ensures FilesAsLeft(s.agents[a].stage, s.(world := Step(s.world, c, env)))
  {
    if Removes(s.agents[a].stage) { UsedPathStaysBare(s, c, env, s.agents[a].stage.path); }
    if s.agents[a].stage.GcTreeGone? {
      NobodyStoresTree(s, a, b, c);
      TreesStep(s.world, c, env, s.agents[a].stage.path);
    }
  }

  lemma AgentSurvives(s: System, a: nat, b: nat, c: Command, env: Env)
    requires SystemOk(s) && a in s.agents && b in s.agents && a != b && Calls(s.agents[b].stage, c, s.world) && FreshIds(s.world, env)
    requires c.BeginPreparation? ==> c.path !in s.spent
    ensures AgentOk(s.(world := Step(s.world, c, env)), s.agents[a].stage)
  {
    assert AgentOk(s, s.agents[a].stage);
    RecordSurvives(s, a, b, c, env);
    KnownSurvives(s.world, c, env, s.agents[a].stage);
    FilesSurvive(s, a, b, c, env);
  }

  // ---------------------------------------------------------------------------------------------
  // A command's own call
  // ---------------------------------------------------------------------------------------------

  /** The records a call leaves behind. */
  function Leaves(ws: map<Path, Workspace>, next: Result<State, Refusal>): map<Path, Workspace> {
    if next.Ok? then next.value.workspaces else ws
  }

  /** An accepted call edits the record it is addressed to. */
  ghost predicate Edits(ws: map<Path, Workspace>, p: Path, e: Edit, env: Env, next: Result<State, Refusal>) {
    next.Ok? ==> p in ws && Edited(ws[p], e, env).Ok? && next.value.workspaces == ws[p := Edited(ws[p], e, env).value]
  }

  lemma PathCall(world: World, p: Path, e: Edit, env: Env)
    ensures Edits(world.state.workspaces, p, e, env, Apply(world.state, At(p, e), env))
  {
  }

  lemma IdCall(world: World, p: Path, id: Id, e: Edit, env: Env)
    requires OnlyAt(world, p, id)
    ensures Edits(world.state.workspaces, p, e, env, Apply(world.state, For(id, e), env))
    ensures Apply(world.state, For(id, e), env).Ok? ==> world.state.workspaces[p].Carries(id)
  {
  }

  /** Calls that touch no record at all. */
  lemma RecordlessCall(world: World, c: Command, env: Env)
    requires c.RecordMetric? || c.PutTree? || c.DropTree?
    ensures Leaves(world.state.workspaces, Apply(world.state, c, env)) == world.state.workspaces
  {
  }

  lemma StepLeaves(world: World, c: Command, env: Env)
    ensures Step(world, c, env).state.workspaces == Leaves(world.state.workspaces, Apply(world.state, c, env))
  {
  }

  lemma OwnReservation(world: World, c: Command, env: Env, p: Path)
    requires WorldOk(world) && FreshIds(world, env) && c.Reserve? && c.requested == Some(p)
    requires Then(Reserving(p), c, env, Apply(world.state, c, env)).Reserved?
    ensures var ws' := Step(world, c, env).state.workspaces;
            && p in world.state.workspaces && Eligible(world.state.workspaces[p])
            && p in ws' && AssignedWith(ws'[p], env.first, env.second)
  {
    if p in world.state.workspaces { RecordStep(world, c, env, p); }
  }

  lemma OwnBeginning(world: World, p: Path, branch: string, env: Env)
    requires Apply(world.state, BeginPreparation(p, branch), env).Ok?
    ensures p !in world.state.workspaces
    ensures var ws' := Step(world, BeginPreparation(p, branch), env).state.workspaces;
            p in ws' && PreparingWith(ws'[p], env.first)
  {
  }

  lemma OwnCreation(ws: map<Path, Workspace>, c: Command, env: Env, stage: Stage, next: Result<State, Refusal>, world: World)
    requires Opens(stage) && RecordAsLeft(stage, ws) && Calls(stage, c, world)
    requires Edits(ws, c.path, c.edit, env, next)
    ensures RecordAsLeft(Then(stage, c, env, next), Leaves(ws, next))
  {
  }

  /** A preparation under way stays, hands its record over, or is done with it. */
  lemma InstallationLeads(stage: Stage, c: Command, env: Env, next: Result<State, Refusal>, world: World)
    requires Installing(stage) && Calls(stage, c, world)
    ensures var after := Then(stage, c, env, next);
            && (Claim(after).Some? ==>
                  || (after == stage && (next.Err? || !c.At? || c.edit.TrackInstaller? || c.edit.UntrackInstaller?))
                  || (next.Ok? && c.At? && c.edit.MarkAssigned? && after == HandingOff(stage.path, env.first, env.second)))
            && (c.At? ==> c.path == stage.path)
  {
  }

  lemma PreparingEdits(w: Workspace, e: Edit, env: Env, o: Id)
    requires PreparingWith(w, o) && Edited(w, e, env).Ok? && (e.TrackInstaller? || e.UntrackInstaller? || e.MarkAssigned?)
    ensures if e.MarkAssigned? then AssignedWith(Edited(w, e, env).value, env.first, env.second) else PreparingWith(Edited(w, e, env).value, o)
  {
  }

  lemma OwnInstallation(ws: map<Path, Workspace>, c: Command, env: Env, stage: Stage, next: Result<State, Refusal>, world: World)
    requires Installing(stage) && RecordAsLeft(stage, ws) && Calls(stage, c, world)
    requires if c.At? then Edits(ws, c.path, c.edit, env, next) else Leaves(ws, next) == ws
    ensures RecordAsLeft(Then(stage, c, env, next), Leaves(ws, next))
  {
    InstallationLeads(stage, c, env, next, world);
    if Claim(Then(stage, c, env, next)).Some? && c.At? && next.Ok? { PreparingEdits(ws[stage.path], c.edit, env, stage.operation); }
  }

  lemma OwnHandoff(ws: map<Path, Workspace>, c: Command, env: Env, stage: Stage, next: Result<State, Refusal>, world: World)
    requires stage.HandingOff? && RecordAsLeft(stage, ws) && Calls(stage, c, world)
    requires if c.At? || c.For? then Edits(ws, stage.path, c.edit, env, next) else Leaves(ws, next) == ws
    ensures RecordAsLeft(Then(stage, c, env, next), Leaves(ws, next))
  {
    if (c.At? || c.For?) && next.Ok? { HandoffEdit(ws[stage.path], c.edit, env, stage.id, stage.operation); }
  }

  lemma HandoffEdit(w: Workspace, e: Edit, env: Env, id: Id, o: Id)
    requires AssignedWith(w, id, o) && Edited(w, e, env).Ok?
    requires e.RefreshLease? || e.PublishPorts? || e.TrackInstaller? || e.UntrackInstaller? || e.RecordSuccess? || e.Retain?
    ensures e.RecordSuccess? || e.Retain? || AssignedWith(Edited(w, e, env).value, id, o)
  {
  }

  lemma OwnDrain(ws: map<Path, Workspace>, c: Command, env: Env, stage: Stage, next: Result<State, Refusal>, world: World)
    requires stage.Draining? && RecordAsLeft(stage, ws) && Calls(stage, c, world)
    requires Edits(ws, stage.path, c.edit, env, next)
    ensures RecordAsLeft(Then(stage, c, env, next), Leaves(ws, next))
  {
    if next.Ok? { ReturningEdit(ws[stage.path], c.edit, env, stage.id); }
  }

  /** A return that is accepted starts, or joins, a drain of everything tracked at the fence. */
  lemma OwnReturn(ws: map<Path, Workspace>, c: Command, env: Env, stage: Stage, next: Result<State, Refusal>)
    requires (stage.ReturnReady? || stage.GcChosen?) && c.For? && c.edit.BeginReturn?
    requires Edits(ws, stage.path, c.edit, env, next) && (stage.ReturnReady? ==> c.id == stage.id)
    requires next.Ok? ==> ws[stage.path].Carries(c.id)
    ensures RecordAsLeft(Then(stage, c, env, next), Leaves(ws, next))
  {
  }

  lemma OwnFence(ws: map<Path, Workspace>, c: Command, env: Env, stage: Stage, next: Result<State, Refusal>)
    requires stage.GcChosen? && c.At? && c.path == stage.path && (c.edit.BeginCollection? || c.edit.RemoveUnassigned?)
    requires Edits(ws, stage.path, c.edit, env, next)
    ensures RecordAsLeft(Then(stage, c, env, next), Leaves(ws, next))
  {
  }

  lemma OwnReserving(world: World, c: Command, env: Env, stage: Stage)
    requires WorldOk(world) && FreshIds(world, env) && Calls(stage, c, world) && stage.Reserving?
    ensures RecordAsLeft(Then(stage, c, env, Apply(world.state, c, env)), Step(world, c, env).state.workspaces)
  {
    ReservingLeads(stage, c, env, Apply(world.state, c, env), world);
    var ws' := Step(world, c, env).state.workspaces;
    if Then(stage, c, env, Apply(world.state, c, env)).Reserved? {
      OwnReservation(world, c, env, stage.path);
      ReservedAsLeft(stage.path, env.first, env.second, ws');
    } else {
      LostAsLeft(ws');
    }
  }

  lemma ReservedAsLeft(p: Path, id: Id, o: Id, ws: map<Path, Workspace>)
    requires p in ws && AssignedWith(ws[p], id, o)
    ensures RecordAsLeft(Reserved(p, id, o), ws)
  {
  }

  lemma LostAsLeft(ws: map<Path, Workspace>)
    ensures RecordAsLeft(LostReservation, ws)
  {
  }

  lemma ReservingLeads(stage: Stage, c: Command, env: Env, next: Result<State, Refusal>, world: World)
    requires Calls(stage, c, world) && stage.Reserving?
    ensures c.Reserve? && c.requested == Some(stage.path) && stage == Reserving(stage.path)
    ensures Then(stage, c, env, next) == Reserved(stage.path, env.first, env.second) || Then(stage, c, env, next) == LostReservation
  {
  }

  lemma BegunLeads(stage: Stage, c: Command, env: Env, next: Result<State, Refusal>, world: World)
    requires Calls(stage, c, world) && (stage.Beginning? || stage.WarmIdle?)
    ensures c.BeginPreparation?
    ensures var after := Then(stage, c, env, next);
            Claim(after).Some? ==> next.Ok? && Opens(after) && after.path == c.path && after.operation == env.first
  {
  }

  lemma OwnOpening(world: World, c: Command, env: Env, stage: Stage)
    requires WorldOk(world) && FreshIds(world, env) && Calls(stage, c, world)
    requires stage.Reserving? || stage.Beginning? || stage.WarmIdle?
    ensures RecordAsLeft(Then(stage, c, env, Apply(world.state, c, env)), Step(world, c, env).state.workspaces)
  {
    if stage.Reserving? {
      OwnReserving(world, c, env, stage);
    } else {
      BegunLeads(stage, c, env, Apply(world.state, c, env), world);
      if Apply(world.state, c, env).Ok? { OwnBeginning(world, c.path, c.branch, env); }
    }
  }

  lemma OwnWork(world: World, c: Command, env: Env, stage: Stage)
    requires Calls(stage, c, world) && (Prepares(stage) || stage.HandingOff?)
    requires RecordAsLeft(stage, world.state.workspaces) && TargetKnown(stage, world)
    ensures RecordAsLeft(Then(stage, c, env, Apply(world.state, c, env)), Step(world, c, env).state.workspaces)
  {
    var next, ws := Apply(world.state, c, env), world.state.workspaces;
    StepLeaves(world, c, env);
    if c.At? {
      PathCall(world, c.path, c.edit, env);
    } else if c.For? {
      IdCall(world, stage.path, c.id, c.edit, env);
    } else {
      RecordlessCall(world, c, env);
    }
    if stage.HandingOff? {
      OwnHandoff(ws, c, env, stage, next, world);
    } else if Installing(stage) {
      OwnInstallation(ws, c, env, stage, next, world);
    } else {
      OwnCreation(ws, c, env, stage, next, world);
    }
  }

  /** Past the fence, a call of the collection keeps its claim only by dropping the tree entry. */
  lemma CollectionCallLeads(stage: Stage, c: Command, env: Env, next: Result<State, Refusal>, world: World)
    requires Calls(stage, c, world) && Collects(stage)
    ensures var after := Then(stage, c, env, next);
            Claim(after).Some? ==> c.DropTree? && after.GcTreeGone? && after.path == stage.path && after.operation == stage.operation
  {
  }

  lemma OwnCollection(world: World, c: Command, env: Env, stage: Stage)
    requires Calls(stage, c, world) && Collects(stage) && RecordAsLeft(stage, world.state.workspaces)
    ensures RecordAsLeft(Then(stage, c, env, Apply(world.state, c, env)), Step(world, c, env).state.workspaces)
  {
    CollectionCallLeads(stage, c, env, Apply(world.state, c, env), world);
    if c.DropTree? {
      StepLeaves(world, c, env);
      RecordlessCall(world, c, env);
    }
  }

  lemma OwnCollectionRecord(world: World, c: Command, env: Env, stage: Stage)
    requires Calls(stage, c, world)
    requires RecordAsLeft(stage, world.state.workspaces) && TargetKnown(stage, world)
    requires stage.GcChosen? || stage.ReturnReady? || stage.Draining?
    ensures RecordAsLeft(Then(stage, c, env, Apply(world.state, c, env)), Step(world, c, env).state.workspaces)
  {
    var next, ws := Apply(world.state, c, env), world.state.workspaces;
    StepLeaves(world, c, env);
    if c.For? {
      IdCall(world, stage.path, c.id, c.edit, env);
      if stage.Draining? { OwnDrain(ws, c, env, stage, next, world); } else { OwnReturn(ws, c, env, stage, next); }
    } else {
      PathCall(world, c.path, c.edit, env);
      OwnFence(ws, c, env, stage, next);
    }
  }

  lemma OwnRecord(world: World, c: Command, env: Env, stage: Stage)
    requires WorldOk(world) && FreshIds(world, env) && Calls(stage, c, world)
    requires RecordAsLeft(stage, world.state.workspaces) && TargetKnown(stage, world)
    ensures RecordAsLeft(Then(stage, c, env, Apply(world.state, c, env)), Step(world, c, env).state.workspaces)
  {
    if Collects(stage) {
      OwnCollection(world, c, env, stage);
    } else if stage.GcChosen? || stage.ReturnReady? || stage.Draining? {
      OwnCollectionRecord(world, c, env, stage);
    } else if stage.Reserving? || stage.Beginning? || stage.WarmIdle? {
      OwnOpening(world, c, env, stage);
    } else if Claim(stage).Some? {
      OwnWork(world, c, env, stage);
    }
  }

  /** A new claim is either on a workspace whose handoff lock is held, or on a new record. */
  lemma NewClaimWhere(world: World, c: Command, env: Env, stage: Stage, next: Result<State, Refusal>)
    requires Calls(stage, c, world) && Claim(Then(stage, c, env, next)).Some?
    ensures Claim(Then(stage, c, env, next)) == Claim(stage)
      || (Claim(stage).None? && stage.WarmIdle? && next.Ok? && c.BeginPreparation? && Claim(Then(stage, c, env, next)) == Some(c.path))
      || (Claim(stage).None? && !stage.WarmIdle? && Claim(Then(stage, c, env, next)) == Some(stage.path)
          && Handover(stage.path) in StageHolds(stage))
  {
  }

  lemma NothingToReturn(world: World, c: Command, env: Env, stage: Stage, o: Id)
    requires WorldOk(world) && stage.ReturnReady? && Calls(stage, c, world) && TargetKnown(stage, world)
    requires stage.path in world.state.workspaces && PreparingWith(world.state.workspaces[stage.path], o)
    ensures Apply(world.state, c, env).Err?
  {
    assert ValidWorkspace(world.state.workspaces[stage.path]);
    IdCall(world, stage.path, c.id, c.edit, env);
  }

  lemma UnpooledClaim(stage: Stage, c: Command, env: Env, next: Result<State, Refusal>, world: World)
    requires Calls(stage, c, world) && Pool !in StageHolds(stage) && Claim(stage).None? && !stage.Beginning?
    ensures Claim(Then(stage, c, env, next)).Some? ==>
              stage.ReturnReady? && next.Ok? && Claim(Then(stage, c, env, next)) == Some(stage.path)
  {
  }

  lemma BegunElsewhere(world: World, c: Command, env: Env, stage: Stage, mine: Stage)
    requires stage.Beginning? && Calls(stage, c, world) && Claim(mine).Some? && RecordAsLeft(mine, world.state.workspaces)
    ensures !SameClaim(mine, Then(stage, c, env, Apply(world.state, c, env)))
  {
    if Apply(world.state, c, env).Ok? { OwnBeginning(world, stage.path, c.branch, env); }
  }

  lemma ReturnedElsewhere(world: World, c: Command, env: Env, stage: Stage, mine: Stage)
    requires WorldOk(world) && stage.ReturnReady? && Calls(stage, c, world) && TargetKnown(stage, world)
    requires Prepares(mine) && RecordAsLeft(mine, world.state.workspaces) && mine.path == stage.path
    ensures Apply(world.state, c, env).Err?
  {
    NothingToReturn(world, c, env, stage, mine.operation);
  }

  lemma UnpooledElsewhere(world: World, c: Command, env: Env, stage: Stage, mine: Stage, next: Result<State, Refusal>)
    requires WorldOk(world) && Calls(stage, c, world) && TargetKnown(stage, world) && next == Apply(world.state, c, env) && !stage.Beginning?
    requires Prepares(mine) && RecordAsLeft(mine, world.state.workspaces) && Pool !in StageHolds(stage) && Claim(stage).None?
    ensures !SameClaim(mine, Then(stage, c, env, next))
  {
    UnpooledClaim(stage, c, env, next, world);
    if Claim(Then(stage, c, env, next)).Some? && stage.path == mine.path { ReturnedElsewhere(world, c, env, stage, mine); }
  }

  /** A command starts work only where no one else has work in progress. */
  lemma NewClaimIsFree(world: World, c: Command, env: Env, stage: Stage, mine: Stage)
    requires WorldOk(world) && Calls(stage, c, world) && TargetKnown(stage, world)
    requires RecordAsLeft(mine, world.state.workspaces) && Apart(mine, stage)
    ensures !SameClaim(mine, Then(stage, c, env, Apply(world.state, c, env)))
  {
    var next := Apply(world.state, c, env);
    if SameClaim(mine, Then(stage, c, env, next)) {
      NewClaimWhere(world, c, env, stage, next);
      if stage.WarmIdle? {
        OwnBeginning(world, c.path, c.branch, env);
      } else if Prepares(mine) && Pool !in StageHolds(stage) {
        if stage.Beginning? { BegunElsewhere(world, c, env, stage, mine); } else { UnpooledElsewhere(world, c, env, stage, mine, next); }
      }
    }
  }

  lemma FreshIdOnlyAt(world: World, c: Command, env: Env, p: Path)
    requires WorldOk(world) && p in Step(world, c, env).state.workspaces && Step(world, c, env).state.workspaces[p].Carries(env.first)
    ensures OnlyAt(Step(world, c, env), p, env.first)
  {
    var ws' := Step(world, c, env).state.workspaces;
    assert ValidState(Step(world, c, env).state);
    forall q | q in ws' && ws'[q].Carries(env.first) ensures q == p { assert SameAssignment(ws'[p], ws'[q]); }
  }

  lemma ReservedTarget(world: World, c: Command, env: Env, stage: Stage)
    requires WorldOk(world) && FreshIds(world, env) && Calls(stage, c, world) && stage.Reserving?
    ensures TargetKnown(Then(stage, c, env, Apply(world.state, c, env)), Step(world, c, env))
  {
    ReservingLeads(stage, c, env, Apply(world.state, c, env), world);
    if Then(stage, c, env, Apply(world.state, c, env)).Reserved? {
      OwnReservation(world, c, env, stage.path);
      FreshIdOnlyAt(world, c, env, stage.path);
    }
  }

  lemma FreshlyAssigned(world: World, p: Path, e: Edit, env: Env, o: Id)
    requires e.MarkAssigned? && Apply(world.state, At(p, e), env).Ok?
    requires p in world.state.workspaces && PreparingWith(world.state.workspaces[p], o)
    ensures var ws' := Step(world, At(p, e), env).state.workspaces; p in ws' && ws'[p].Carries(env.first)
  {
    PathCall(world, p, e, env);
    PreparingEdits(world.state.workspaces[p], e, env, o);
  }

  lemma PreparedTarget(world: World, c: Command, env: Env, stage: Stage)
    requires WorldOk(world) && FreshIds(world, env) && Calls(stage, c, world) && stage.PreparingFresh?
    requires RecordAsLeft(stage, world.state.workspaces)
    ensures TargetKnown(Then(stage, c, env, Apply(world.state, c, env)), Step(world, c, env))
  {
    var next := Apply(world.state, c, env);
    PreparingLeads(stage, c, env, next, world);
    if next.Ok? && c.At? && c.edit.MarkAssigned? {
      FreshlyAssigned(world, stage.path, c.edit, env, stage.operation);
      FreshIdOnlyAt(world, c, env, stage.path);
    }
  }

  lemma PreparingLeads(stage: Stage, c: Command, env: Env, next: Result<State, Refusal>, world: World)
    requires stage.PreparingFresh? && Calls(stage, c, world)
    ensures c.At? ==> c.path == stage.path
    ensures Then(stage, c, env, next) == (if next.Ok? && c.At? && c.edit.MarkAssigned? then HandingOff(stage.path, env.first, env.second)
                                          else if next.Ok? && c.At? && c.edit.FinishPreparation? then HandedOff(stage.path)
                                          else stage)
  {
  }

  lemma NewTarget(world: World, c: Command, env: Env, stage: Stage)
    requires WorldOk(world) && FreshIds(world, env) && Calls(stage, c, world)
    requires RecordAsLeft(stage, world.state.workspaces)
    requires stage.Reserving? || stage.PreparingFresh?
    ensures TargetKnown(Then(stage, c, env, Apply(world.state, c, env)), Step(world, c, env))
  {
    if stage.Reserving? { ReservedTarget(world, c, env, stage); } else { PreparedTarget(world, c, env, stage); }
  }

  /** Whatever assignment a record carries, no other record carries. */
  lemma CarriedOnlyAt(world: World, p: Path)
    requires WorldOk(world) && p in world.state.workspaces && world.state.workspaces[p].assignment.Some?
    ensures OnlyAt(world, p, world.state.workspaces[p].assignment.value.id)
  {
    var ws := world.state.workspaces;
    forall q | q in ws && ws[q].Carries(ws[p].assignment.value.id) ensures q == p { assert SameAssignment(ws[p], ws[q]); }
  }

  lemma SweepLeads(stage: Stage, c: Command, env: Env, next: Result<State, Refusal>, world: World)
    requires (stage.GcChosen? || stage.Draining?) && Calls(stage, c, world)
    ensures var after := Then(stage, c, env, next);
            && !after.ReturnWants? && !after.ReturnReady? && !HandsOff(after)
            && (after.Draining? ==> after.path == stage.path && c.For? && after.id == c.id)
            && (after.GcChosen? ==> next.Ok? && after.path == stage.path && after.path in next.value.workspaces && after.seen == next.value.workspaces[after.path])
    ensures c.For? ==> c.id == (if stage.Draining? then stage.id else stage.seen.assignment.value.id)
  {
  }

  lemma SweepTarget(world: World, c: Command, env: Env, stage: Stage)
    requires WorldOk(world) && FreshIds(world, env) && Calls(stage, c, world)
    requires (stage.GcChosen? || stage.Draining?) && TargetKnown(stage, world)
    ensures TargetKnown(Then(stage, c, env, Apply(world.state, c, env)), Step(world, c, env))
  {
    var next := Apply(world.state, c, env);
    var after := Then(stage, c, env, next);
    SweepLeads(stage, c, env, next, world);
    StepKeepsWorldOk(world, c, env);
    if after.Draining? {
      TargetsSurvive(world, c, env, stage.path, c.id);
    } else if after.GcChosen? && after.seen.assignment.Some? {
      CarriedOnlyAt(Step(world, c, env), after.path);
    }
  }

  /** No other call leads to an assignment the command did not have in view before. */
  lemma TargetStays(stage: Stage, c: Command, env: Env, next: Result<State, Refusal>, world: World)
    requires Calls(stage, c, world) && !stage.Reserving? && !stage.PreparingFresh? && !stage.GcChosen? && !stage.Draining?
    ensures var after := Then(stage, c, env, next);
            && !after.GcChosen?
            && (after.ReturnWants? || after.ReturnReady? || after.Draining? || HandsOff(after) ==>
                  (stage.ReturnReady? || HandsOff(stage)) && after.path == stage.path && after.id == stage.id)
  {
  }

  lemma OwnTarget(world: World, c: Command, env: Env, stage: Stage)
    requires WorldOk(world) && FreshIds(world, env) && Calls(stage, c, world)
    requires RecordAsLeft(stage, world.state.workspaces) && TargetKnown(stage, world)
    ensures TargetKnown(Then(stage, c, env, Apply(world.state, c, env)), Step(world, c, env))
  {
    if stage.Reserving? || stage.PreparingFresh? {
      NewTarget(world, c, env, stage);
    } else if stage.GcChosen? || stage.Draining? {
      SweepTarget(world, c, env, stage);
    } else {
      TargetStays(stage, c, env, Apply(world.state, c, env), world);
      KnownSurvives(world, c, env, stage);
    }
  }
}
