/**
 Every run of the commands in Handoff, create and remove included, from any starting worktrees and an
 empty state: no command takes another's work in progress, no live lease is collected, a release drains,
 and a record goes last.
 */
module HandoffRuns {
  import opened Common
  import opened RukState
  import opened Transitions
  import opened Validity
  import opened Lifecycle
  import opened Fences
  import opened Ownership
  import opened Collection
  import opened Handoff
  import opened HandoffSafety

  // ---------------------------------------------------------------------------------------------
  // Updates
  // ---------------------------------------------------------------------------------------------

  /** A collection goes on to drop the tree entry once the directory is gone, and to delete once that is. */
  lemma CollectionLeads(stage: Stage, c: Command, env: Env, next: Result<State, Refusal>, world: World)
    requires Calls(stage, c, world) && (Collects(stage) || stage.GcChosen?)
    ensures var after := Then(stage, c, env, next);
            && !Installing(after) && !Made(after) && !Removes(after) && !after.RemoveLooks? && !after.GcWorktreeGone?
            && (after.GcTreeGone? ==> stage.GcWorktreeGone? && after.path == stage.path && c == DropTree(stage.path) && next.Ok?)
  {
  }

  lemma CollectionLeaves(s: System, c: Command, env: Env, stage: Stage)
    requires Calls(stage, c, s.world) && FilesAsLeft(stage, s) && (Collects(stage) || stage.GcChosen?)
    ensures FilesAsLeft(Then(stage, c, env, Apply(s.world.state, c, env)), s.(world := Step(s.world, c, env)))
  {
    CollectionLeads(stage, c, env, Apply(s.world.state, c, env), s.world);
  }

  /** Every other call leads on to a preparation only of a worktree locked before, and makes nothing. */
  lemma OthersLeave(stage: Stage, c: Command, env: Env, next: Result<State, Refusal>, world: World)
    requires Calls(stage, c, world) && !Collects(stage) && !stage.GcChosen?
    ensures var after := Then(stage, c, env, next);
            && !Collects(after) && (Installing(after) ==> Installing(stage) && after.path == stage.path)
            && !Removes(after) && !after.RemoveLooks? && (Made(after) ==> after == stage)
  {
  }

  lemma OwnFiles(s: System, c: Command, env: Env, stage: Stage)
    requires Calls(stage, c, s.world) && FilesAsLeft(stage, s)
    ensures FilesAsLeft(Then(stage, c, env, Apply(s.world.state, c, env)), s.(world := Step(s.world, c, env)))
  {
    if Collects(stage) || stage.GcChosen? {
      CollectionLeaves(s, c, env, stage);
    } else {
      OthersLeave(stage, c, env, Apply(s.world.state, c, env), s.world);
    }
  }

  /** Using up more paths disturbs no one. */
  lemma AgentOkDependsOn(s: System, t: System, stage: Stage)
    requires s.world == t.world && s.worktrees == t.worktrees && s.locked == t.locked && s.spent <= t.spent && AgentOk(s, stage)
    ensures AgentOk(t, stage)
  {
  }

  lemma OwnUpdate(s: System, c: Command, env: Env, stage: Stage)
    requires SystemOk(s) && AgentOk(s, stage) && Calls(stage, c, s.world) && FreshIds(s.world, env)
    ensures AgentOk(s.(world := Step(s.world, c, env)), Then(stage, c, env, Apply(s.world.state, c, env)))
  {
    OwnRecord(s.world, c, env, stage);
    OwnFiles(s, c, env, stage);
    OwnTarget(s.world, c, env, stage);
  }

  lemma UpdateKeepsAgents(s: System, a: nat, c: Command, env: Env)
    requires SystemOk(s) && Enabled(s, Update(a, c, env))
    ensures AgentsOk(Next(s, Update(a, c, env)))
  {
    var s' := Next(s, Update(a, c, env));
    var stage := s.agents[a].stage;
    assert AgentOk(s, stage);
    var t := s.(world := Step(s.world, c, env));
    forall b | b in s'.agents ensures AgentOk(s', s'.agents[b].stage) {
      if b == a { OwnUpdate(s, c, env, stage); } else { AgentSurvives(s, b, a, c, env); }
      AgentOkDependsOn(t, s', s'.agents[b].stage);
    }
  }

  lemma CallMakesNothing(stage: Stage, c: Command, env: Env, next: Result<State, Refusal>, world: World)
    requires Calls(stage, c, world)
    ensures Made(Then(stage, c, env, next)) ==> Then(stage, c, env, next) == stage
  {
    if !Collects(stage) && !stage.GcChosen? { OthersLeave(stage, c, env, next, world); }
  }

  lemma UpdateKeepsPaths(s: System, a: nat, c: Command, env: Env)
    requires SystemOk(s) && Enabled(s, Update(a, c, env))
    ensures PathsKnown(Next(s, Update(a, c, env)))
  {
    forall p | p in Step(s.world, c, env).state.workspaces ensures p in s.spent || (c.BeginPreparation? && c.path == p) {
      if p !in s.world.state.workspaces { DecisionShape(s.world.state.workspaces, c, env); }
    }
  }

  lemma UpdateKeepsClaims(s: System, a: nat, c: Command, env: Env)
    requires SystemOk(s) && Enabled(s, Update(a, c, env))
    ensures ClaimsExclusive(Next(s, Update(a, c, env)))
  {
    var s' := Next(s, Update(a, c, env));
    var stage := s.agents[a].stage;
    assert AgentOk(s, stage);
    forall b | b in s.agents && b != a ensures !SameClaim(s.agents[b].stage, s'.agents[a].stage) {
      AlwaysApart(s, b, a);
      assert AgentOk(s, s.agents[b].stage);
      NewClaimIsFree(s.world, c, env, stage, s.agents[b].stage);
    }
  }

  lemma UpdateKeepsSystemOk(s: System, a: nat, c: Command, env: Env)
    requires SystemOk(s) && Enabled(s, Update(a, c, env))
    ensures SystemOk(Next(s, Update(a, c, env)))
  {
    assert AgentOk(s, s.agents[a].stage);
    CallsFit(s, a, c);
    StepKeepsWorldOk(s.world, c, env);
    LocksStep(s, Update(a, c, env));
    UpdateKeepsAgents(s, a, c, env);
    UpdateKeepsClaims(s, a, c, env);
    UpdateKeepsPaths(s, a, c, env);
    CallMakesNothing(s.agents[a].stage, c, env, Apply(s.world.state, c, env), s.world);
    MadeStaysExclusive(s, Next(s, Update(a, c, env)), a);
  }

  /** What was made stays made by one command when one command moves on and makes nothing new. */
  lemma MadeStaysExclusive(s: System, s': System, a: nat)
    requires MadeExclusive(s) && a in s.agents && a in s'.agents && s'.agents == s.agents[a := s'.agents[a]]
    requires Made(s'.agents[a].stage) ==> SameMade(s'.agents[a].stage, s.agents[a].stage)
    ensures MadeExclusive(s')
  {
    forall b, d | b in s'.agents && d in s'.agents && SameMade(s'.agents[b].stage, s'.agents[d].stage) ensures b == d {
      assert SameMade(s.agents[b].stage, s.agents[d].stage);
    }
  }

  // ---------------------------------------------------------------------------------------------
  // Everything else
  // ---------------------------------------------------------------------------------------------

  lemma FencedAdvance(s: System, stage: Stage, to: Stage)
    requires AgentOk(s, stage) && Advances(s, stage, to) && stage.GcFenced?
    ensures AgentOk(s, to)
    ensures Claim(to).Some? ==> Claim(to) == Claim(stage)
  {
  }

  lemma DrainAdvance(s: System, stage: Stage, to: Stage)
    requires AgentOk(s, stage) && Advances(s, stage, to) && stage.Draining?
    ensures AgentOk(s, to)
    ensures Claim(to).Some? ==> Claim(to) == Claim(stage)
  {
  }

  lemma PreparationLeads(s: System, stage: Stage, to: Stage)
    requires Advances(s, stage, to) && Prepares(stage)
    ensures to.Rest? || to == HandedOff(stage.path)
            || (Installing(stage) && (to == WarmWantsHandover(stage.path, stage.operation) || to == WarmPreparing(stage.path, stage.operation)))
  {
  }

  lemma PreparationAdvance(s: System, stage: Stage, to: Stage)
    requires AgentOk(s, stage) && Advances(s, stage, to) && Prepares(stage)
    ensures AgentOk(s, to)
    ensures Claim(to).Some? ==> Claim(to) == Claim(stage)
  {
    PreparationLeads(s, stage, to);
  }

  lemma HandoffAdvance(s: System, stage: Stage, to: Stage)
    requires AgentOk(s, stage) && Advances(s, stage, to) && HandsOff(stage)
    ensures AgentOk(s, to)
    ensures Claim(to).Some? ==> Claim(to) == Claim(stage)
  {
  }

  /** No other move gives a command anything to look after, unless it is told or sees an assignment. */
  lemma SweepAdvance(s: System, stage: Stage, to: Stage)
    requires Advances(s, stage, to) && Sweeps(stage) && !stage.GcFenced? && !stage.Draining?
    ensures Claim(to).None? && !to.ReturnReady? && !to.ReturnWants? && !HandsOff(to) && !Made(to) && !to.RemoveLooks? && !Removes(to)
    ensures to.GcChosen? && to.seen.assignment.Some? ==> to.path in s.world.state.workspaces && to.seen == s.world.state.workspaces[to.path]
  {
  }

  lemma IdleAdvance(s: System, stage: Stage, to: Stage)
    requires Advances(s, stage, to)
    requires !stage.GcFenced? && !stage.Draining? && !Prepares(stage) && !HandsOff(stage)
    ensures Claim(to).None? && !to.ReturnReady? && !to.Draining? && !HandsOff(to) && !Made(to)
    ensures to.ReturnWants? ==> CarriedAt(s.world, to.path, to.id)
    ensures to.GcChosen? && to.seen.assignment.Some? ==> to.path in s.world.state.workspaces && to.seen == s.world.state.workspaces[to.path]
    ensures to.RemoveLooks? ==> to.path in s.worktrees
    ensures Removes(to) ==> to.RemoveWants? && stage == RemoveLooks(to.path) && to.path !in s.world.state.workspaces
  {
    if Sweeps(stage) { SweepAdvance(s, stage, to); }
  }

  lemma AdvanceMakesNothing(s: System, stage: Stage, to: Stage)
    requires Advances(s, stage, to)
    ensures !Made(to)
  {
    if Prepares(stage) {
      PreparationLeads(s, stage, to);
    } else if Sweeps(stage) {
      SweepMakesNothing(s, stage, to);
    }
  }

  lemma SweepMakesNothing(s: System, stage: Stage, to: Stage)
    requires Advances(s, stage, to) && Sweeps(stage)
    ensures !Made(to)
  {
  }

  lemma IdleAdvanceKeepsAgent(s: System, stage: Stage, to: Stage)
    requires WorldOk(s.world) && PathsKnown(s) && AgentOk(s, stage) && Advances(s, stage, to)
    requires !stage.GcFenced? && !stage.Draining? && !Prepares(stage) && !HandsOff(stage)
    ensures AgentOk(s, to) && Claim(to).None?
  {
    IdleAdvance(s, stage, to);
    if to.ReturnWants? || (to.GcChosen? && to.seen.assignment.Some?) { CarriedOnlyAt(s.world, to.path); }
    LittleToLookAfter(s, to);
  }

  lemma LittleToLookAfter(s: System, to: Stage)
    requires Claim(to).None? && !to.ReturnReady? && !Made(to)
    requires to.RemoveLooks? || Removes(to) ==> to.path in s.spent
    requires Removes(to) ==> to.path !in s.world.state.workspaces
    requires to.ReturnWants? ==> OnlyAt(s.world, to.path, to.id)
    requires to.GcChosen? && to.seen.assignment.Some? ==> OnlyAt(s.world, to.path, to.seen.assignment.value.id)
    ensures AgentOk(s, to)
  {
  }

  lemma AdvanceKeepsAgent(s: System, stage: Stage, to: Stage)
    requires WorldOk(s.world) && PathsKnown(s) && AgentOk(s, stage) && Advances(s, stage, to)
    ensures AgentOk(s, to)
    ensures Claim(to).Some? ==> Claim(to) == Claim(stage)
  {
    if stage.GcFenced? {
      FencedAdvance(s, stage, to);
    } else if stage.Draining? {
      DrainAdvance(s, stage, to);
    } else if Prepares(stage) {
      PreparationAdvance(s, stage, to);
    } else if HandsOff(stage) {
      HandoffAdvance(s, stage, to);
    } else {
      IdleAdvanceKeepsAgent(s, stage, to);
    }
  }

  lemma GrantLeads(stage: Stage)
    requires StageWants(stage).Some?
    ensures var to := Granted(stage);
            && (to == stage || Claim(to) == Claim(stage)) && !Made(to) && !to.RemoveLooks?
            && (Removes(to) ==> stage == RemoveWants(to.path))
            && (stage.WarmWantsHandover? ==> to == WarmInstalling(stage.path, stage.operation))
            && (stage.ReturnWants? ==> to == ReturnReady(stage.path, stage.id))
            && (!stage.WarmWantsHandover? && !stage.ReturnWants? ==>
                  Claim(to).None? && !to.ReturnWants? && !to.ReturnReady? && !to.GcChosen? && Claim(stage).None?)
  {
  }

  lemma GrantKeepsAgent(s: System, stage: Stage)
    requires AgentOk(s, stage) && StageWants(stage).Some?
    ensures AgentOk(s, Granted(stage))
    ensures Claim(Granted(stage)) == Claim(stage)
  {
    GrantLeads(stage);
  }

  /** Moves that leave the state alone: the mover keeps its claim or drops it. */
  lemma MoverKeepsClaim(s: System, act: Action)
    requires SystemOk(s) && Enabled(s, act) && (act.Advance? || act.Take?)
    ensures AgentOk(s, Next(s, act).agents[act.a].stage)
    ensures Claim(Next(s, act).agents[act.a].stage).Some? ==> Claim(Next(s, act).agents[act.a].stage) == Claim(s.agents[act.a].stage)
    ensures Made(Next(s, act).agents[act.a].stage) ==> Next(s, act).agents[act.a].stage == s.agents[act.a].stage
  {
    var stage := s.agents[act.a].stage;
    assert AgentOk(s, stage);
    if act.Advance? {
      AdvanceKeepsAgent(s, stage, act.to);
      AdvanceMakesNothing(s, stage, act.to);
    } else if InnerWants(s.agents[act.a].inner).None? {
      GrantKeepsAgent(s, stage);
      GrantLeads(stage);
    }
  }

  lemma MoveKeepsAgents(s: System, act: Action, s': System)
    requires SystemOk(s) && Enabled(s, act) && (act.Advance? || act.Take?) && s' == Next(s, act)
    ensures AgentsOk(s') && ClaimsExclusive(s') && MadeExclusive(s') && PathsKnown(s')
  {
    MoverKeepsClaim(s, act);
    forall b | b in s'.agents ensures AgentOk(s', s'.agents[b].stage) {
      if b != act.a { assert AgentOk(s, s.agents[b].stage); }
      AgentOkDependsOn(s, s', s'.agents[b].stage);
    }
    ClaimsStayExclusive(s, s', act.a);
    MadeStaysExclusive(s, s', act.a);
  }

  /** What a Git command does to the files. */
  ghost predicate GitRan(s: System, s': System, p: Path, op: GitOp) {
    && GitAllows(s, p, op) && s'.world == s.world && s'.spent == (if op.Add? then s.spent + {p} else s.spent)
    && s'.worktrees == Worktrees(s.worktrees, p, op) && s'.locked == Locked(s.locked, p, op)
  }

  /** What it leaves of its own command's work. */
  lemma OwnGit(s: System, s': System, stage: Stage, op: GitOp)
    requires AgentOk(s, stage) && Drives(stage, op) && GitRan(s, s', stage.path, op)
    ensures AgentOk(s', AfterGit(stage, op)) && Claim(AfterGit(stage, op)) == Claim(stage)
  {
    if Claim(stage).Some? { OwnGitOnClaim(s, s', stage, op); }
  }

  lemma OwnGitOnClaim(s: System, s': System, stage: Stage, op: GitOp)
    requires AgentOk(s, stage) && Drives(stage, op) && GitRan(s, s', stage.path, op) && Claim(stage).Some?
    ensures AgentOk(s', AfterGit(stage, op)) && Claim(AfterGit(stage, op)) == Claim(stage)
  {
    if Opens(stage) {
      assert RecordAsLeft(AfterGit(stage, op), s'.world.state.workspaces);
    }
  }

  /** It disturbs no work elsewhere, and no worktree it does not remove. */
  lemma OthersGit(s: System, s': System, mine: Stage, p: Path, op: GitOp)
    requires AgentOk(s, mine) && GitRan(s, s', p, op)
    requires Claim(mine) == Some(p) ==> mine.WarmCreating?
    requires Made(mine) && mine.path == p ==> !op.Remove?
    ensures AgentOk(s', mine)
  {
  }

  /** A removal works on a path without a record, so it meets no work in progress. */
  lemma RemovalMeetsNoClaim(s: System, a: nat, b: nat)
    requires AgentsOk(s) && a in s.agents && b in s.agents && Removes(s.agents[a].stage)
    ensures Claim(s.agents[b].stage) != Some(s.agents[a].stage.path)
  {
    assert AgentOk(s, s.agents[a].stage) && AgentOk(s, s.agents[b].stage);
  }

  /** A create meets only a warm preparation that has not made its own worktree yet: everywhere else the
      handoff lock, Git's lock or the worktree is in its way. */
  lemma CreateMeetsOnlyCreating(s: System, a: nat, b: nat, op: GitOp)
    requires AgentsOk(s) && LocksExclusive(s) && MadeExclusive(s) && s.locked <= s.worktrees
    requires a in s.agents && b in s.agents && a != b && (s.agents[a].stage.Creating? || s.agents[a].stage.Created?)
    requires Drives(s.agents[a].stage, op) && GitAllows(s, s.agents[a].stage.path, op)
    requires Claim(s.agents[b].stage) == Some(s.agents[a].stage.path)
    ensures s.agents[b].stage.WarmCreating?
  {
    var mine, other := s.agents[b].stage, s.agents[a].stage;
    assert AgentOk(s, mine) && AgentOk(s, other);
    ClaimsAreLocked(mine);
    NeverShare(s, a, b, Handover(other.path));
    assert !SameMade(mine, other);
  }

  lemma ClaimsDiffer(s: System, a: nat, b: nat)
    requires ClaimsExclusive(s) && a in s.agents && b in s.agents && a != b
    ensures !SameClaim(s.agents[a].stage, s.agents[b].stage)
  {
  }

  /** Every Git command belongs to a claim, a create or a removal. */
  lemma GitDrivers(stage: Stage, op: GitOp)
    requires Drives(stage, op)
    ensures Claim(stage) == Some(stage.path) || stage.Creating? || stage.Created? || stage.Removing?
  {
  }

  lemma GitMeets(s: System, a: nat, b: nat, op: GitOp)
    requires AgentsOk(s) && LocksExclusive(s) && MadeExclusive(s) && ClaimsExclusive(s) && s.locked <= s.worktrees
    requires a in s.agents && b in s.agents && b != a && Drives(s.agents[a].stage, op) && GitAllows(s, s.agents[a].stage.path, op)
    ensures Claim(s.agents[b].stage) == Some(s.agents[a].stage.path) ==> s.agents[b].stage.WarmCreating?
  {
    var mine, other := s.agents[b].stage, s.agents[a].stage;
    if Claim(mine) == Some(other.path) {
      GitDrivers(other, op);
      if other.Removing? {
        RemovalMeetsNoClaim(s, a, b);
      } else if other.Creating? || other.Created? {
        CreateMeetsOnlyCreating(s, a, b, op);
      } else {
        ClaimsDiffer(s, a, b);
      }
    }
  }

  lemma RemoversHoldHandover(stage: Stage)
    requires Drives(stage, Remove)
    ensures Handover(stage.path) in StageHolds(stage)
  {
  }

  lemma GitSparesCreated(s: System, a: nat, b: nat)
    requires LocksExclusive(s) && a in s.agents && Drives(s.agents[a].stage, Remove)
    requires b in s.agents && b != a && s.agents[b].stage.Created?
    ensures s.agents[b].stage.path != s.agents[a].stage.path
  {
    RemoversHoldHandover(s.agents[a].stage);
    NeverShare(s, a, b, Handover(s.agents[b].stage.path));
  }

  lemma GitSparesMade(s: System, a: nat, b: nat, op: GitOp)
    requires SystemOk(s) && Enabled(s, Git(a, op)) && b in s.agents && b != a
    ensures Made(s.agents[b].stage) && s.agents[b].stage.path == s.agents[a].stage.path ==> !op.Remove?
  {
    if op.Remove? {
      if s.agents[b].stage.Created? { GitSparesCreated(s, a, b); } else { GitMeets(s, a, b, op); }
    }
  }

  lemma GitKeepsAgents(s: System, s': System, a: nat, op: GitOp)
    requires SystemOk(s) && Enabled(s, Git(a, op)) && s' == Next(s, Git(a, op))
    ensures AgentsOk(s') && Claim(s'.agents[a].stage) == Claim(s.agents[a].stage)
  {
    assert AgentOk(s, s.agents[a].stage);
    OwnGit(s, s', s.agents[a].stage, op);
    forall b | b in s'.agents ensures AgentOk(s', s'.agents[b].stage) {
      if b != a {
        assert AgentOk(s, s.agents[b].stage);
        GitMeets(s, a, b, op);
        GitSparesMade(s, a, b, op);
        OthersGit(s, s', s.agents[b].stage, s.agents[a].stage.path, op);
      }
    }
  }

  lemma GitKnowsPaths(s: System, a: nat, op: GitOp)
    requires PathsKnown(s) && Enabled(s, Git(a, op))
    ensures PathsKnown(Next(s, Git(a, op)))
  {
  }

  lemma OnlyAddingMakes(stage: Stage, op: GitOp)
    requires Drives(stage, op) && Made(AfterGit(stage, op))
    ensures op.Add? && AfterGit(stage, op).path == stage.path
  {
  }

  /** Git adds a worktree only where nobody's is. */
  lemma GitMakesAlone(s: System, s': System, a: nat)
    requires AgentsOk(s) && MadeExclusive(s) && a in s.agents && a in s'.agents && s'.agents == s.agents[a := s'.agents[a]]
    requires Made(s'.agents[a].stage) ==> s'.agents[a].stage.path !in s.worktrees
    ensures MadeExclusive(s')
  {
    forall b, d | b in s'.agents && d in s'.agents && SameMade(s'.agents[b].stage, s'.agents[d].stage) ensures b == d {
      if b != a { assert AgentOk(s, s.agents[b].stage); }
      if d != a { assert AgentOk(s, s.agents[d].stage); }
      if b != a && d != a { assert SameMade(s.agents[b].stage, s.agents[d].stage); }
    }
  }

  /** Claims stay exclusive when one command moves on and keeps its claim or drops it. */
  lemma ClaimsStayExclusive(s: System, s': System, a: nat)
    requires ClaimsExclusive(s) && a in s.agents && a in s'.agents && s'.agents == s.agents[a := s'.agents[a]]
    requires Claim(s'.agents[a].stage).Some? ==> Claim(s'.agents[a].stage) == Claim(s.agents[a].stage)
    ensures ClaimsExclusive(s')
  {
    forall b, d | b in s'.agents && d in s'.agents && SameClaim(s'.agents[b].stage, s'.agents[d].stage) ensures b == d {
      assert SameClaim(s.agents[b].stage, s.agents[d].stage);
    }
  }

  lemma QuietMove(s: System, act: Action, b: nat)
    requires Enabled(s, act) && (act.Enter? || act.Crash? || act.Open? || act.Close?) && b in Next(s, act).agents
    ensures Next(s, act).world == s.world && Next(s, act).worktrees == s.worktrees && Next(s, act).locked == s.locked
    ensures Next(s, act).spent == s.spent
    ensures if b in s.agents then Next(s, act).agents[b].stage == s.agents[b].stage else Next(s, act).agents[b].stage == Rest
  {
  }

  lemma QuietMoveKeepsAgents(s: System, act: Action, s': System)
    requires SystemOk(s) && Enabled(s, act) && (act.Enter? || act.Crash? || act.Open? || act.Close?) && s' == Next(s, act)
    ensures AgentsOk(s')
  {
    forall b | b in s'.agents ensures AgentOk(s', s'.agents[b].stage) {
      QuietMove(s, act, b);
      if b in s.agents {
        assert AgentOk(s, s.agents[b].stage);
        AgentOkDependsOn(s, s', s.agents[b].stage);
      }
    }
  }

  lemma QuietMoveKeepsClaims(s: System, act: Action)
    requires SystemOk(s) && Enabled(s, act) && (act.Enter? || act.Crash? || act.Open? || act.Close?)
    ensures ClaimsExclusive(Next(s, act)) && MadeExclusive(Next(s, act)) && PathsKnown(Next(s, act))
  {
    var s' := Next(s, act);
    forall b, d | b in s'.agents && d in s'.agents && SameClaim(s'.agents[b].stage, s'.agents[d].stage) ensures b == d {
      QuietMove(s, act, b);
      QuietMove(s, act, d);
      assert SameClaim(s.agents[b].stage, s.agents[d].stage);
    }
    forall b, d | b in s'.agents && d in s'.agents && SameMade(s'.agents[b].stage, s'.agents[d].stage) ensures b == d {
      QuietMove(s, act, b);
      QuietMove(s, act, d);
      assert SameMade(s.agents[b].stage, s.agents[d].stage);
    }
  }

  /** What a sighting under the handoff lock says about an assignment it is about to take. */
  predicate Sighted(stage: Stage) {
    stage.GcChosen? && stage.seen.assignment.Some? ==>
      Classify(stage.seen, stage.run.cutoff, stage.run.now, true) == Ok(Some(stage.reason))
  }

  ghost predicate Reached(s: System) { SystemOk(s) && forall a :: a in s.agents ==> Sighted(s.agents[a].stage) }

  /** A command that looks again at what it drained sees no assignment there. */
  lemma SeenAgainUnassigned(ws: map<Path, Workspace>, c: Command, env: Env, stage: Stage, next: Result<State, Refusal>, world: World)
    requires Calls(stage, c, world) && (stage.GcChosen? || stage.Draining?) && Edits(ws, stage.path, c.edit, env, next)
    ensures var after := Then(stage, c, env, next);
            after.GcChosen? ==> after.seen.assignment.None?
  {
  }

  lemma OwnSighting(world: World, c: Command, env: Env, stage: Stage)
    requires Calls(stage, c, world) && TargetKnown(stage, world)
    ensures Sighted(Then(stage, c, env, Apply(world.state, c, env)))
  {
    if stage.GcChosen? || stage.Draining? {
      if c.At? { PathCall(world, c.path, c.edit, env); } else { IdCall(world, stage.path, c.id, c.edit, env); }
      SeenAgainUnassigned(world.state.workspaces, c, env, stage, Apply(world.state, c, env), world);
    }
  }

  lemma AdvanceSighting(s: System, stage: Stage, to: Stage)
    requires Advances(s, stage, to)
    ensures Sighted(to)
  {
  }

  lemma GrantSighting(stage: Stage)
    requires StageWants(stage).Some?
    ensures !Granted(stage).GcChosen?
  {
  }

  lemma UpdaterSighting(s: System, a: nat, c: Command, env: Env)
    requires AgentsOk(s) && Enabled(s, Update(a, c, env))
    ensures Sighted(Next(s, Update(a, c, env)).agents[a].stage)
  {
    assert AgentOk(s, s.agents[a].stage);
    OwnSighting(s.world, c, env, s.agents[a].stage);
  }

  lemma GitSighting(stage: Stage, op: GitOp)
    requires Drives(stage, op)
    ensures !AfterGit(stage, op).GcChosen?
  {
  }

  lemma MoverSighting(s: System, act: Action)
    requires Reached(s) && Enabled(s, act) && act.a in Next(s, act).agents
    ensures Sighted(Next(s, act).agents[act.a].stage)
  {
    match act
    case Update(a, c, env) => UpdaterSighting(s, a, c, env);
    case Git(a, op) => GitSighting(s.agents[a].stage, op);
    case Advance(a, to) => AdvanceSighting(s, s.agents[a].stage, to);
    case Take(a) => if InnerWants(s.agents[a].inner).None? { GrantSighting(s.agents[a].stage); }
    case _ =>
  }

  lemma NextKeepsSightings(s: System, act: Action)
    requires Reached(s) && Enabled(s, act)
    ensures forall a :: a in Next(s, act).agents ==> Sighted(Next(s, act).agents[a].stage)
  {
    if act.a in Next(s, act).agents { MoverSighting(s, act); }
    forall b | b in Next(s, act).agents && b != act.a ensures Sighted(Next(s, act).agents[b].stage) {
      assert b in s.agents && Next(s, act).agents[b] == s.agents[b];
    }
  }

  lemma GitKeepsSystemOk(s: System, a: nat, op: GitOp, s': System)
    requires SystemOk(s) && Enabled(s, Git(a, op)) && s' == Next(s, Git(a, op))
    ensures SystemOk(s')
  {
    LocksStep(s, Git(a, op));
    GitKeepsAgents(s, s', a, op);
    ClaimsStayExclusive(s, s', a);
    GitKnowsPaths(s, a, op);
    if Made(AfterGit(s.agents[a].stage, op)) { OnlyAddingMakes(s.agents[a].stage, op); }
    GitMakesAlone(s, s', a);
  }

  lemma MoveKeepsSystemOk(s: System, act: Action, s': System)
    requires SystemOk(s) && Enabled(s, act) && (act.Advance? || act.Take?) && s' == Next(s, act)
    ensures SystemOk(s')
  {
    LocksStep(s, act);
    MoveKeepsAgents(s, act, s');
  }

  lemma QuietMoveKeepsSystemOk(s: System, act: Action, s': System)
    requires SystemOk(s) && Enabled(s, act) && (act.Enter? || act.Crash? || act.Open? || act.Close?) && s' == Next(s, act)
    ensures SystemOk(s')
  {
    LocksStep(s, act);
    QuietMoveKeepsAgents(s, act, s');
    QuietMoveKeepsClaims(s, act);
  }

  lemma NextKeepsSystemOk(s: System, act: Action, s': System)
    requires SystemOk(s) && Enabled(s, act) && s' == Next(s, act)
    ensures SystemOk(s')
  {
    match act
    case Update(a, c, env) => UpdateKeepsSystemOk(s, a, c, env);
    case Git(a, op) => GitKeepsSystemOk(s, a, op, s');
    case Advance(_, _) => MoveKeepsSystemOk(s, act, s');
    case Take(_) => MoveKeepsSystemOk(s, act, s');
    case _ => QuietMoveKeepsSystemOk(s, act, s');
  }

  lemma NextKeepsReached(s: System, act: Action)
    requires Reached(s) && Enabled(s, act)
    ensures Reached(Next(s, act))
  {
    NextKeepsSightings(s, act);
    NextKeepsSystemOk(s, act, Next(s, act));
  }

  // ---------------------------------------------------------------------------------------------
  // Runs
  // ---------------------------------------------------------------------------------------------

  ghost predicate CanGo(s: System, acts: seq<Action>)
    decreases acts
  {
    acts != [] ==> Enabled(s, acts[0]) && CanGo(Next(s, acts[0]), acts[1..])
  }

  ghost function Go(s: System, acts: seq<Action>): System
    requires CanGo(s, acts)
    decreases acts
  {
    if acts == [] then s else Go(Next(s, acts[0]), acts[1..])
  }

  function FirstSystem(worktrees: set<Path>, locked: set<Path>): System { System(FIRST_WORLD, worktrees, locked, worktrees, map[]) }

  lemma {:induction false} GoKeepsReached(s: System, acts: seq<Action>)
    requires Reached(s) && CanGo(s, acts)
    ensures Reached(Go(s, acts))
    decreases acts
  {
    if acts != [] {
      NextKeepsReached(s, acts[0]);
      GoKeepsReached(Next(s, acts[0]), acts[1..]);
    }
  }

  /** Every system any run leads to is in order. */
  lemma EveryRunStaysInOrder(worktrees: set<Path>, locked: set<Path>, acts: seq<Action>)
    requires locked <= worktrees && CanGo(FirstSystem(worktrees, locked), acts)
    ensures Reached(Go(FirstSystem(worktrees, locked), acts))
  {
    FirstWorldOk();
    GoKeepsReached(FirstSystem(worktrees, locked), acts);
  }

  // ---------------------------------------------------------------------------------------------
  // What the runs guarantee
  // ---------------------------------------------------------------------------------------------

  /** No cyclic wait: a command kept waiting can always be traced to one that holds a lock and waits
      for nothing. */
  lemma SomeHolderRuns(s: System, a: nat)
    requires Reached(s) && Waits(s, a)
    ensures exists runner :: runner in s.agents && !Waits(s, runner) && Holds(s.agents[runner]) != {}
  {
    var runner := WaitingEnds(s, a);
  }

  /** Who takes a directory away: a collection that fenced it, a create that failed on what it made, or a
      removal. */
  lemma DirectoriesGo(s: System, act: Action, p: Path)
    requires Enabled(s, act) && p in s.worktrees && p !in Next(s, act).worktrees
    ensures act.Git? && act.op.Remove? && s.agents[act.a].stage.path == p && p !in s.locked
  {
  }

  lemma LocksGo(s: System, act: Action, p: Path)
    requires Enabled(s, act) && p in s.locked && p !in Next(s, act).locked
    ensures act.Git? && act.op.Unlock? && s.agents[act.a].stage.GcFenced? && Claim(s.agents[act.a].stage) == Some(p)
  {
  }

  lemma TreesGo(s: System, act: Action, p: Path)
    requires Enabled(s, act) && p in s.world.state.trees && p !in Next(s, act).world.state.trees
    ensures act.Update? && (Claim(s.agents[act.a].stage) == Some(p) || s.agents[act.a].stage == Forgetting(p))
  {
  }

  lemma TreeDropApplies(world: World, p: Path, env: Env)
    requires WorldOk(world)
    ensures Apply(world.state, DropTree(p), env) == Ok(world.state.(trees := world.state.trees - {p}))
  {
  }

  lemma OthersStay(s: System, act: Action, a: nat)
    requires Enabled(s, act) && a in s.agents && act.a != a
    ensures a in Next(s, act).agents && Next(s, act).agents[a] == s.agents[a]
  {
  }

  /** What no other command takes of the work a command has in progress on a path. A warm preparation that
      is still to make its worktree has no directory to lose. */
  ghost predicate WorkIsKept(s: System, s': System, mine: Stage, p: Path) {
    && RecordAsLeft(mine, s'.world.state.workspaces)
    && (p in s.locked ==> p in s'.locked)
    && (p in s.world.state.trees ==> p in s'.world.state.trees)
    && (p in s.worktrees && !mine.WarmCreating? ==> p in s'.worktrees)
  }

  lemma DirectoryStays(s: System, act: Action, a: nat, p: Path)
    requires Reached(s) && Enabled(s, act) && a in s.agents && act.a != a && Claim(s.agents[a].stage) == Some(p)
    ensures p in s.worktrees && !s.agents[a].stage.WarmCreating? ==> p in Next(s, act).worktrees
  {
    if p in s.worktrees && p !in Next(s, act).worktrees {
      DirectoriesGo(s, act, p);
      GitMeets(s, act.a, a, act.op);
    }
  }

  lemma TreeStays(s: System, act: Action, a: nat, p: Path)
    requires Reached(s) && Enabled(s, act) && a in s.agents && act.a != a && Claim(s.agents[a].stage) == Some(p)
    ensures p in s.world.state.trees ==> p in Next(s, act).world.state.trees
  {
    if p in s.world.state.trees && p !in Next(s, act).world.state.trees {
      TreesGo(s, act, p);
      if Removes(s.agents[act.a].stage) { RemovalMeetsNoClaim(s, act.a, a); } else { ClaimsDiffer(s, act.a, a); }
    }
  }

  lemma LockStays(s: System, act: Action, a: nat, p: Path)
    requires Reached(s) && Enabled(s, act) && a in s.agents && act.a != a && Claim(s.agents[a].stage) == Some(p)
    ensures p in s.locked ==> p in Next(s, act).locked
  {
    if p in s.locked && p !in Next(s, act).locked {
      LocksGo(s, act, p);
      ClaimsDiffer(s, act.a, a);
    }
  }

  /** Work in progress is never taken: whatever any other command does, a running preparation, acquisition,
      collection or drain keeps its record, its tree entry, Git's lock and its directory, and nobody else
      gets to work on its workspace. */
  lemma WorkInProgressIsNeverTaken(s: System, act: Action, a: nat, p: Path)
    requires Reached(s) && Enabled(s, act) && a in s.agents && act.a != a && Claim(s.agents[a].stage) == Some(p)
    ensures WorkIsKept(s, Next(s, act), s.agents[a].stage, p)
    ensures forall b :: b in Next(s, act).agents && b != a ==> Claim(Next(s, act).agents[b].stage) != Some(p)
  {
    var s' := Next(s, act);
    NextKeepsReached(s, act);
    OthersStay(s, act, a);
    DirectoryStays(s, act, a, p);
    TreeStays(s, act, a, p);
    LockStays(s, act, a, p);
    assert AgentOk(s', s'.agents[a].stage);
    forall b | b in s'.agents && b != a ensures Claim(s'.agents[b].stage) != Some(p) {
      assert !SameClaim(s'.agents[a].stage, s'.agents[b].stage);
    }
  }

  /** Once a path was used and has no record, it never gets one again. */
  lemma {:induction false} UsedPathsStayBare(s: System, acts: seq<Action>, p: Path)
    requires CanGo(s, acts) && p in s.spent && p !in s.world.state.workspaces
    ensures p in Go(s, acts).spent && p !in Go(s, acts).world.state.workspaces
    decreases acts
  {
    if acts != [] {
      if acts[0].Update? { UsedPathStaysBare(s, acts[0].command, acts[0].env, p); }
      UsedPathsStayBare(Next(s, acts[0]), acts[1..], p);
    }
  }

  /** Although it looks for a record before it has the handoff lock and not again under it, a removal never
      touches a managed workspace: when it takes a directory or a tree entry there is no record, and there
      never will be one. */
  lemma RemovalsSpareManaged(s: System, a: nat, acts: seq<Action>)
    requires Reached(s) && a in s.agents && Removes(s.agents[a].stage) && CanGo(s, acts)
    ensures s.agents[a].stage.path !in Go(s, acts).world.state.workspaces
  {
    assert AgentOk(s, s.agents[a].stage);
    UsedPathsStayBare(s, acts, s.agents[a].stage.path);
  }

  /** A record is deleted only after its directory and its tree entry are gone, by the command whose
      collection fence it carries; any failure before that leaves the record there. */
  lemma RecordsGoLast(s: System, act: Action, p: Path)
    requires Reached(s) && Enabled(s, act)
    requires p in s.world.state.workspaces && p !in Next(s, act).world.state.workspaces
    ensures act.Update? && p !in s.worktrees && p !in s.world.state.trees
    ensures exists run, o :: s.agents[act.a].stage == GcTreeGone(run, p, o) && Collecting(s.world.state.workspaces[p], o)
  {
    RecordStep(s.world, act.command, act.env, p);
    DeletesComeLast(s.agents[act.a].stage, act.command, s.world);
    assert AgentOk(s, s.agents[act.a].stage);
    assert s.agents[act.a].stage == GcTreeGone(s.agents[act.a].stage.run, p, act.command.operation);
  }

  lemma DeletesComeLast(stage: Stage, c: Command, world: World)
    requires Calls(stage, c, world) && c.DeleteRecord?
    ensures stage.GcTreeGone? && stage.path == c.path && stage.operation == c.operation
  {
  }

  lemma LeavingAssigned(w: Workspace, e: Edit, env: Env)
    requires w.lifecycle.Assigned? && Edited(w, e, env).Ok? && !Edited(w, e, env).value.lifecycle.Assigned?
    ensures e.BeginReturn? && Edited(w, e, env).value.lifecycle.Returning?
    ensures e.acquisition == w.operation
    ensures e.expectedUpdatedAt.Some? ==> w.updatedAt == e.expectedUpdatedAt.value
    ensures e.expiredBy.Some? ==> w.assignment.Some? && w.assignment.value.expiresAt <= e.expiredBy.value
  {
  }

  /** An assignment is taken from its owner by an explicit release of exactly that assignment, or by
      collection: with force once its lease, as stored at that moment, ended by the run's clock; or,
      when its acquisition never finished, once the record is older than the cutoff. */
  predicate TakenFairly(stage: Stage, w: Workspace) {
    w.assignment.Some? &&
    match stage
    case ReturnReady(_, id) => w.Carries(id)
    case GcChosen(run, _, reason, seen, _) =>
      if w.operation.None? then run.force && w.assignment.value.expiresAt <= run.now && reason.ExpiredAssignment?
      else reason.AbandonedAcquisition? && w.updatedAt <= run.cutoff
    case _ => false
  }

  lemma ReturnsAreFair(s: System, stage: Stage, c: Command, w: Workspace, env: Env)
    requires Calls(stage, c, s.world) && Sighted(stage) && c.For? && w.Carries(c.id)
    requires w.lifecycle.Assigned? && Edited(w, c.edit, env).Ok? && !Edited(w, c.edit, env).value.lifecycle.Assigned?
    requires c.edit.BeginReturn?
    ensures TakenFairly(stage, w)
  {
    LeavingAssigned(w, c.edit, env);
  }

  lemma LiveLeasesAreNeverTaken(s: System, act: Action, p: Path)
    requires Reached(s) && Enabled(s, act)
    requires p in s.world.state.workspaces && s.world.state.workspaces[p].lifecycle.Assigned?
    requires p in Next(s, act).world.state.workspaces ==> !Next(s, act).world.state.workspaces[p].lifecycle.Assigned?
    ensures p in Next(s, act).world.state.workspaces
    ensures act.Update? && TakenFairly(s.agents[act.a].stage, s.world.state.workspaces[p])
  {
    var w := s.world.state.workspaces[p];
    OnlyReturnsTake(s.world, act.command, act.env, p);
    ReturnsAreFair(s, s.agents[act.a].stage, act.command, w, act.env);
  }

  lemma OnlyReturnsTake(world: World, c: Command, env: Env, p: Path)
    requires WorldOk(world) && p in world.state.workspaces && world.state.workspaces[p].lifecycle.Assigned?
    requires var ws' := Step(world, c, env).state.workspaces; p in ws' ==> !ws'[p].lifecycle.Assigned?
    ensures p in Step(world, c, env).state.workspaces
    ensures c.For? && c.edit.BeginReturn? && world.state.workspaces[p].Carries(c.id)
    ensures Edited(world.state.workspaces[p], c.edit, env) == Ok(Step(world, c, env).state.workspaces[p])
  {
    RecordStep(world, c, env, p);
    LeavingAssigned(world.state.workspaces[p], EditOf(c).value, env);
  }

  // ---------------------------------------------------------------------------------------------
  // Draining
  // ---------------------------------------------------------------------------------------------

  predicate StartsDrain(stage: Stage, w: Workspace, id: Id) {
    stage.Draining? && w.lifecycle.Returning? && w.Carries(id) && stage.id == id &&
    stage.tracked == w.processes && stage.done == 0 && stage.gone == {}
  }

  lemma ReturnStarts(ws: map<Path, Workspace>, c: Command, env: Env, stage: Stage, next: Result<State, Refusal>)
    requires (stage.ReturnReady? || stage.GcChosen?) && c.For? && c.edit.BeginReturn? && next.Ok?
    requires Edits(ws, stage.path, c.edit, env, next) && (stage.ReturnReady? ==> c.id == stage.id) && ws[stage.path].Carries(c.id)
    ensures stage.path in next.value.workspaces && StartsDrain(Then(stage, c, env, next), next.value.workspaces[stage.path], c.id)
    ensures Claim(Then(stage, c, env, next)) == Some(stage.path)
  {
  }

  /** An accepted return starts by tracking every process the record held when the fence went up. */
  lemma DrainStartsWithEverything(s: System, a: nat, c: Command, env: Env)
    requires Reached(s) && Enabled(s, Update(a, c, env)) && c.For? && c.edit.BeginReturn? && Apply(s.world.state, c, env).Ok?
    ensures var stage := Next(s, Update(a, c, env)).agents[a].stage;
            && Claim(stage).Some? && Claim(stage).value in Next(s, Update(a, c, env)).world.state.workspaces
            && StartsDrain(stage, Next(s, Update(a, c, env)).world.state.workspaces[Claim(stage).value], c.id)
  {
    var stage := s.agents[a].stage;
    assert AgentOk(s, stage);
    CallsFit(s, a, c);
    IdCall(s.world, stage.path, c.id, c.edit, env);
    ReturnStarts(s.world.state.workspaces, c, env, stage, Apply(s.world.state, c, env));
  }

  predicate SameIdentity(r: Process, g: Process) { r.pid == g.pid && r.startedAt == g.startedAt }

  predicate Names(e: Edit, r: Process) { (e.RemoveUnassigned? || e.UntrackInstaller?) && e.pid == r.pid && e.startedAt == r.startedAt }

  /** Only these calls take a process off an unassigned record, and only the one they name. */
  lemma UnassignedLoses(w: Workspace, e: Edit, env: Env, r: Process)
    requires w.assignment.None? && Edited(w, e, env).Ok? && r in w.processes && r !in Edited(w, e, env).value.processes
    requires !e.RemoveProcess?
    ensures Names(e, r)
  {
    if e.RemoveUnassigned? || e.UntrackInstaller? {
      var i := FindProcess(w.processes, e.pid, e.startedAt);
      assert forall q :: q in w.processes ==> q == w.processes[i] || q in Without(w.processes, i);
    }
  }

  lemma UntrackingCall(world: World, c: Command, env: Env, p: Path, r: Process)
    requires WorldOk(world) && p in world.state.workspaces && world.state.workspaces[p].assignment.None? && r in world.state.workspaces[p].processes
    requires p in Step(world, c, env).state.workspaces && r !in Step(world, c, env).state.workspaces[p].processes
    ensures c.At? && c.path == p && Names(c.edit, r)
  {
    RecordStep(world, c, env, p);
    UnassignedLoses(world.state.workspaces[p], EditOf(c).value, env, r);
  }

  lemma CollectionNames(stage: Stage, c: Command, world: World)
    requires Calls(stage, c, world) && c.At? && c.edit.RemoveUnassigned?
    ensures stage.GcChosen? && stage.path == c.path && stage.seen.processes != [] && stage.seen.processes[0] in stage.gone
    ensures c.edit.pid == stage.seen.processes[0].pid && c.edit.startedAt == stage.seen.processes[0].startedAt
  {
  }

  /** A process is taken off an unassigned workspace only by an installer's own untracking of it, or by a
      collection that saw that very process gone under the workspace's handoff lock. */
  lemma UnassignedUntracksOnlyTheGone(s: System, act: Action, p: Path, r: Process)
    requires Reached(s) && Enabled(s, act)
    requires p in s.world.state.workspaces && s.world.state.workspaces[p].assignment.None? && r in s.world.state.workspaces[p].processes
    requires p in Next(s, act).world.state.workspaces && r !in Next(s, act).world.state.workspaces[p].processes
    ensures act.Update? && act.command.At? && act.command.path == p && Names(act.command.edit, r)
    ensures act.command.edit.RemoveUnassigned? ==>
              var stage := s.agents[act.a].stage;
              && stage.GcChosen? && stage.path == p && Handover(p) in StageHolds(stage)
              && exists g :: g in stage.gone && SameIdentity(r, g)
  {
    UntrackingCall(s.world, act.command, act.env, p, r);
    if act.command.edit.RemoveUnassigned? {
      CollectionNames(s.agents[act.a].stage, act.command, s.world);
      assert SameIdentity(r, s.agents[act.a].stage.seen.processes[0]);
    }
  }

  lemma FinishPublishes(w: Workspace, env: Env, stage: Stage)
    requires stage.Draining? && DrainOk(w, stage.id, stage.tracked, stage.done, stage.gone) && stage.done == |stage.tracked|
    requires Edited(w, FinishReturn, env).Ok?
    ensures w.processes == [] && forall r :: r in stage.tracked ==> r in stage.gone
    ensures var w' := Edited(w, FinishReturn, env).value; Eligible(w') && w'.assignment.None? && w'.processes == []
  {
  }

  ghost predicate PublishedDrained(stage: Stage, ws: map<Path, Workspace>, ws': map<Path, Workspace>) {
    && stage.Draining? && stage.path in ws && ws[stage.path].processes == []
    && (forall r :: r in stage.tracked ==> r in stage.gone)
    && stage.path in ws' && Eligible(ws'[stage.path]) && ws'[stage.path].assignment.None? && ws'[stage.path].processes == []
  }

  lemma FinishingMeansDrained(stage: Stage, id: Id, world: World)
    requires Calls(stage, For(id, FinishReturn), world)
    ensures stage.Draining? && stage.id == id && stage.done == |stage.tracked|
  {
  }

  /** A workspace is published as available again only when every process tracked at the fence was
      observed gone afterwards, and nothing is tracked any more. */
  lemma PublishedOnlyWhenDrained(s: System, a: nat, id: Id, env: Env)
    requires Reached(s) && Enabled(s, Update(a, For(id, FinishReturn), env))
    requires Apply(s.world.state, For(id, FinishReturn), env).Ok?
    ensures PublishedDrained(s.agents[a].stage, s.world.state.workspaces, Apply(s.world.state, For(id, FinishReturn), env).value.workspaces)
  {
    var stage := s.agents[a].stage;
    assert AgentOk(s, stage);
    FinishingMeansDrained(stage, id, s.world);
    IdCall(s.world, stage.path, id, FinishReturn, env);
    FinishPublishes(s.world.state.workspaces[stage.path], env, stage);
  }

  function Restored(w: Workspace, failure: string, env: Env): Workspace {
    w.(lifecycle := Assigned, updatedAt := env.now, availableAt := None, failure := Some(failure))
  }

  lemma CancelMutates(world: World, p: Path, id: Id, failure: string, env: Env)
    requires OnlyAt(world, p, id) && failure != ""
    requires p in world.state.workspaces && world.state.workspaces[p].lifecycle.Returning? && world.state.workspaces[p].Carries(id)
    ensures Mutated(world.state, For(id, CancelReturn(failure)), env) ==
              Ok(State(world.state.trees, world.state.workspaces[p := Restored(world.state.workspaces[p], failure, env)], world.state.metrics))
  {
  }

  lemma CancelFits(world: World, p: Path, id: Id, failure: string, env: Env)
    requires OnlyAt(world, p, id) && p in world.state.workspaces && world.state.workspaces[p].Carries(id)
    ensures CallerDataOk(world.state, For(id, CancelReturn(failure))) && CountersFit(world.state.metrics, For(id, CancelReturn(failure)))
    ensures TimesFit(world.state.workspaces, For(id, CancelReturn(failure)), env) <==> ValidTimestamp(env.now)
  {
    assert Holder(world.state.workspaces, id) == Some(p);
  }

  lemma CancelApplies(world: World, p: Path, id: Id, failure: string, env: Env)
    requires WorldOk(world) && FreshIds(world, env) && OnlyAt(world, p, id)
    requires p in world.state.workspaces && world.state.workspaces[p].lifecycle.Returning? && world.state.workspaces[p].Carries(id)
    ensures Apply(world.state, For(id, CancelReturn(failure)), env).Ok? <==> failure != "" && ValidTimestamp(env.now)
    ensures var next := Apply(world.state, For(id, CancelReturn(failure)), env);
            next.Ok? ==> next.value.workspaces == world.state.workspaces[p := Restored(world.state.workspaces[p], failure, env)]
  {
    if failure != "" {
      CancelMutates(world, p, id, failure, env);
      GuardedCallsEncode(world, For(id, CancelReturn(failure)), env);
      CancelFits(world, p, id, failure, env);
    }
  }

  lemma OnlyDrainsCancel(stage: Stage, id: Id, failure: string, world: World)
    requires Calls(stage, For(id, CancelReturn(failure)), world)
    ensures stage.Draining? && stage.id == id
  {
  }

  lemma DrainedRecord(s: System, stage: Stage)
    requires AgentOk(s, stage) && stage.Draining?
    ensures OnlyAt(s.world, stage.path, stage.id) && stage.path in s.world.state.workspaces
    ensures s.world.state.workspaces[stage.path].lifecycle.Returning? && s.world.state.workspaces[stage.path].Carries(stage.id)
  {
  }

  /** Giving up a release restores ownership, the acquisition marker included, whenever the restoring
      write carries a reason and a representable time; nothing else can refuse it. */
  lemma CancelRestoresOwnership(s: System, a: nat, id: Id, failure: string, env: Env)
    requires Reached(s) && Enabled(s, Update(a, For(id, CancelReturn(failure)), env))
    ensures var p, next := s.agents[a].stage.path, Apply(s.world.state, For(id, CancelReturn(failure)), env);
            && p in s.world.state.workspaces && s.world.state.workspaces[p].Carries(id)
            && (next.Ok? <==> failure != "" && ValidTimestamp(env.now))
            && (next.Ok? ==> next.value.workspaces == s.world.state.workspaces[p := Restored(s.world.state.workspaces[p], failure, env)])
  {
    var stage := s.agents[a].stage;
    assert AgentOk(s, stage);
    OnlyDrainsCancel(stage, id, failure, s.world);
    DrainedRecord(s, stage);
    CancelApplies(s.world, stage.path, id, failure, env);
  }
}
