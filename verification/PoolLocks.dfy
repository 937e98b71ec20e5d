/**
 Git's own lock on pooled worktrees (internal/lifecycle/gc_service.go): a workspace in the pool or with
 an owner keeps its worktree locked, unless a cancelled collection puts it back with the lock an
 interrupted one took off.
 */
module PoolLocks {
  import opened Common
  import opened RukState
  import opened Transitions
  import opened Validity
  import opened Lifecycle
  import opened Fences
  import opened Ownership
  import opened Collection
  import opened Handoff
  import opened HandoffSafety
  import opened HandoffRuns
  import opened HandoffProgress

  // ---------------------------------------------------------------------------------------------
  // The pool stays locked
  // ---------------------------------------------------------------------------------------------

  /** In the pool for the next acquisition, or with an owner. */
  predicate InUse(w: Workspace) { Eligible(w) || w.Owned() }

  ghost predicate PoolLocked(s: System) {
    forall p :: p in s.world.state.workspaces && InUse(s.world.state.workspaces[p]) ==> p in s.locked
  }

  /** A collection is cancelled on a spare workspace whose worktree is not locked. */
  ghost predicate RepublishesUnlocked(s: System, act: Action) {
    && act.Update? && act.command.At? && act.command.edit.CancelCollection? && Apply(s.world.state, act.command, act.env).Ok?
    && act.command.path in s.world.state.workspaces && s.world.state.workspaces[act.command.path].lifecycle.Available?
    && act.command.path !in s.locked
  }

  /** The calls that put a record to use. */
  lemma EditToUse(w: Workspace, e: Edit, env: Env)
    requires Edited(w, e, env).Ok? && InUse(Edited(w, e, env).value) && !InUse(w)
    ensures e.MarkAssigned? || (e.FinishPreparation? && e.verdict.None?) || (e.CancelCollection? && w.lifecycle.Available?)
  {
  }

  lemma ToUseIsInstalled(stage: Stage, c: Command, world: World)
    requires Calls(stage, c, world) && c.At? && (c.edit.MarkAssigned? || (c.edit.FinishPreparation? && c.edit.verdict.None?))
    ensures Installing(stage) && stage.path == c.path
  {
  }

  lemma RecordStaysLocked(s: System, a: nat, c: Command, env: Env, p: Path)
    requires Reached(s) && PoolLocked(s) && Enabled(s, Update(a, c, env)) && !RepublishesUnlocked(s, Update(a, c, env))
    requires p in s.world.state.workspaces && p in Step(s.world, c, env).state.workspaces
    requires InUse(Step(s.world, c, env).state.workspaces[p]) && !InUse(s.world.state.workspaces[p])
    ensures p in s.locked
  {
    RecordStep(s.world, c, env, p);
    EditToUse(s.world.state.workspaces[p], EditOf(c).value, env);
    if !c.edit.CancelCollection? {
      ToUseIsInstalled(s.agents[a].stage, c, s.world);
      assert AgentOk(s, s.agents[a].stage);
    }
  }

  lemma NewRecordIsNotInUse(world: World, c: Command, env: Env, p: Path)
    requires WorldOk(world) && p !in world.state.workspaces && p in Step(world, c, env).state.workspaces
    ensures !InUse(Step(world, c, env).state.workspaces[p])
  {
    DecisionShape(world.state.workspaces, c, env);
  }

  lemma UpdateKeepsPool(s: System, a: nat, c: Command, env: Env)
    requires Reached(s) && PoolLocked(s) && Enabled(s, Update(a, c, env)) && !RepublishesUnlocked(s, Update(a, c, env))
    ensures PoolLocked(Next(s, Update(a, c, env)))
  {
    var ws, ws' := s.world.state.workspaces, Step(s.world, c, env).state.workspaces;
    forall p | p in ws' && InUse(ws'[p]) ensures p in s.locked {
      if p !in ws {
        NewRecordIsNotInUse(s.world, c, env, p);
      } else if !InUse(ws[p]) {
        RecordStaysLocked(s, a, c, env, p);
      }
    }
  }

  lemma CancellingRepublishes(world: World, p: Path, o: Id, env: Env)
    requires Apply(world.state, At(p, CancelCollection(o)), env).Ok? && p in world.state.workspaces && world.state.workspaces[p].lifecycle.Available?
    ensures var ws' := Step(world, At(p, CancelCollection(o)), env).state.workspaces; p in ws' && Eligible(ws'[p])
  {
  }

  lemma RepublishingBreaksThePool(s: System, s': System, c: Command, env: Env)
    requires c.At? && c.edit.CancelCollection? && Apply(s.world.state, c, env).Ok? && c.path !in s.locked
    requires c.path in s.world.state.workspaces && s.world.state.workspaces[c.path].lifecycle.Available?
    requires s'.world == Step(s.world, c, env) && s'.locked == s.locked
    ensures !PoolLocked(s')
  {
    CancellingRepublishes(s.world, c.path, c.edit.operation, env);
    assert InUse(s'.world.state.workspaces[c.path]);
  }

  lemma UnlockedIsFenced(s: System, a: nat)
    requires Reached(s) && a in s.agents && Drives(s.agents[a].stage, Unlock) && s.agents[a].stage.path in s.world.state.workspaces
    ensures !InUse(s.world.state.workspaces[s.agents[a].stage.path])
  {
    assert AgentOk(s, s.agents[a].stage);
  }

  lemma GitKeepsPool(s: System, a: nat, op: GitOp)
    requires Reached(s) && PoolLocked(s) && Enabled(s, Git(a, op))
    ensures PoolLocked(Next(s, Git(a, op)))
  {
    if op.Unlock? && s.agents[a].stage.path in s.world.state.workspaces { UnlockedIsFenced(s, a); }
  }

  /** A step from a locked pool leaves it locked exactly when it does not republish an unlocked worktree. */
  lemma StepKeepsPoolExactlyWhen(s: System, act: Action)
    requires Reached(s) && PoolLocked(s) && Enabled(s, act)
    ensures PoolLocked(Next(s, act)) <==> !RepublishesUnlocked(s, act)
  {
    match act
    case Update(a, c, env) =>
      if RepublishesUnlocked(s, act) { RepublishingBreaksThePool(s, Next(s, act), c, env); } else { UpdateKeepsPool(s, a, c, env); }
    case Git(a, op) => GitKeepsPool(s, a, op);
    case _ =>
  }

  ghost predicate LockedThroughout(s: System, acts: seq<Action>)
    requires CanGo(s, acts)
    decreases acts
  {
    PoolLocked(s) && (acts != [] ==> LockedThroughout(Next(s, acts[0]), acts[1..]))
  }

  ghost predicate NeverRepublishesUnlocked(s: System, acts: seq<Action>)
    requires CanGo(s, acts)
    decreases acts
  {
    acts != [] ==> !RepublishesUnlocked(s, acts[0]) && NeverRepublishesUnlocked(Next(s, acts[0]), acts[1..])
  }

  lemma {:induction false} RunKeepsPoolExactlyWhen(s: System, acts: seq<Action>)
    requires Reached(s) && PoolLocked(s) && CanGo(s, acts)
    ensures LockedThroughout(s, acts) <==> NeverRepublishesUnlocked(s, acts)
    decreases acts
  {
    if acts != [] {
      NextKeepsReached(s, acts[0]);
      StepKeepsPoolExactlyWhen(s, acts[0]);
      if !RepublishesUnlocked(s, acts[0]) { RunKeepsPoolExactlyWhen(Next(s, acts[0]), acts[1..]); }
    }
  }

  /** Over any run from an empty state: every workspace in the pool or with an owner has a locked worktree
      all along, exactly when no collection is ever cancelled on a spare workspace without the lock. */
  lemma PoolStaysLockedExactlyWhen(worktrees: set<Path>, locked: set<Path>, acts: seq<Action>)
    requires locked <= worktrees && CanGo(FirstSystem(worktrees, locked), acts)
    ensures LockedThroughout(FirstSystem(worktrees, locked), acts) <==> NeverRepublishesUnlocked(FirstSystem(worktrees, locked), acts)
  {
    FirstWorldOk();
    RunKeepsPoolExactlyWhen(FirstSystem(worktrees, locked), acts);
  }

  // ---------------------------------------------------------------------------------------------
  // A collection interrupted, and the next one cancelled
  // ---------------------------------------------------------------------------------------------

  function FencedBy(w: Workspace, env: Env): Workspace { w.(operation := Some(env.first), updatedAt := env.now) }

  lemma SpareIsFenced(world: World, p: Path, env: Env)
    requires WorldOk(world) && FreshIds(world, env) && ValidTimestamp(env.now)
    requires p in world.state.workspaces && Eligible(world.state.workspaces[p])
    ensures var w := world.state.workspaces[p];
            Step(world, At(p, BeginCollection(w.updatedAt)), env).state.workspaces == world.state.workspaces[p := FencedBy(w, env)]
  {
    var w := world.state.workspaces[p];
    assert ValidWorkspace(w);
    FenceGoesUp(world, p, env);
  }

  lemma FencedStaysFenced(world: World, p: Path, o: Id, env: Env)
    requires WorldOk(world) && FreshIds(world, env) && ValidTimestamp(env.now)
    requires p in world.state.workspaces && Collecting(world.state.workspaces[p], o) && world.state.workspaces[p].assignment.None?
    ensures Step(world, At(p, BeginCollection(world.state.workspaces[p].updatedAt)), env).state.workspaces == world.state.workspaces
  {
    var w := world.state.workspaces[p];
    assert ValidWorkspace(w) && KindOk(world, w);
    assert world.state.workspaces[p := w] == world.state.workspaces;
  }

  lemma CancellingApplies(world: World, p: Path, o: Id, env: Env)
    requires WorldOk(world) && FreshIds(world, env) && ValidTimestamp(env.now) && p in world.state.workspaces
    requires Collecting(world.state.workspaces[p], o) && world.state.workspaces[p].lifecycle.Available?
    ensures var ws' := Step(world, At(p, CancelCollection(o)), env).state.workspaces; p in ws' && Eligible(ws'[p])
  {
    GuardedCallsEncode(world, At(p, CancelCollection(o)), env);
  }

  lemma Dies(s: System, a: nat, stage: Stage)
    requires a !in s.agents
    ensures Leads(With(s, a, stage, Outside), s)
  {
    assert With(s, a, stage, Outside).agents - {a} == s.agents;
    OneStep(With(s, a, stage, Outside), Crash(a), s);
  }

  /** Fenced and unlocked, and then the collection dies. */
  lemma CollectionDies(s: System, a: nat, run: GcRun, p: Path, reason: Reason, now: int) returns (u: System, o: Id)
    requires a !in s.agents && Ready(s, a) && Due(s, run, p, reason) && ValidTimestamp(now)
    requires Eligible(s.world.state.workspaces[p]) && p in s.worktrees
    ensures u == WithoutLock(s, p).(world := u.world) && WorldOk(u.world) && Leads(s, u)
    ensures p in u.world.state.workspaces && u.world.state.workspaces[p].lifecycle.Available? && Collecting(u.world.state.workspaces[p], o)
    ensures u.world.state.workspaces[p].assignment.None? && u.world.state.workspaces[p].processes == []
  {
    var env := FreshEnv(s.world, now);
    assert ValidWorkspace(s.world.state.workspaces[p]);
    SpareIsFenced(s.world, p, env);
    var fenced;
    fenced, o := CollectionFences(s, a, run, p, reason, env);
    LockGoes(fenced, a, run, p, o);
    u := WithoutLock(fenced, p);
    Dies(u, a, GcUnlocked(run, p, o));
    var dying := With(u, a, GcUnlocked(run, p, o), Outside);
    LeadsOn(s, With(fenced, a, GcFenced(run, p, o), Outside), dying);
    LeadsOn(s, dying, u);
  }

  lemma CancelCall(run: GcRun, p: Path, o: Id, env: Env, world: World, next: Result<State, Refusal>)
    ensures Calls(GcFenced(run, p, o), At(p, CancelCollection(o)), world)
    ensures Then(GcFenced(run, p, o), At(p, CancelCollection(o)), env, next) == GcFinished(run, p)
  {
  }

  lemma CollectionCancels(s: System, a: nat, run: GcRun, p: Path, o: Id, env: Env) returns (t: System)
    requires Unopposed(s, a) && WorldOk(s.world) && FreshIds(s.world, env) && ValidTimestamp(env.now)
    requires p in s.world.state.workspaces && Collecting(s.world.state.workspaces[p], o) && s.world.state.workspaces[p].lifecycle.Available?
    ensures Leads(With(s, a, GcFenced(run, p, o), Outside), t)
    ensures t.locked == s.locked && p in t.world.state.workspaces && Eligible(t.world.state.workspaces[p])
  {
    var c := At(p, CancelCollection(o));
    CancelCall(run, p, o, env, s.world, Apply(s.world.state, c, env));
    CanUpdate(s, a, GcFenced(run, p, o), c, env);
    CancellingApplies(s.world, p, o, env);
    t := With(s.(world := Step(s.world, c, env)), a, GcFinished(run, p), Outside);
  }

  /** The next collection finds the fence, cannot inspect the worktree, and cancels. */
  lemma CollectionGivesUp(u: System, a: nat, run: GcRun, p: Path, o: Id, now: int) returns (t: System)
    requires a !in u.agents && Ready(u, a) && Due(u, run, p, InterruptedCollection) && ValidTimestamp(now)
    requires Collecting(u.world.state.workspaces[p], o) && u.world.state.workspaces[p].lifecycle.Available?
    requires u.world.state.workspaces[p].assignment.None? && u.world.state.workspaces[p].processes == []
    ensures Leads(u, t) && t.locked == u.locked && p in t.world.state.workspaces && Eligible(t.world.state.workspaces[p])
  {
    var second := FreshEnv(u.world, now);
    var fenced, o' := CollectionFences(u, a, run, p, InterruptedCollection, second);
    FencedStaysFenced(u.world, p, o, second);
    var third := FreshEnv(fenced.world, now);
    t := CollectionCancels(fenced, a, run, p, o', third);
    LeadsOn(u, With(fenced, a, GcFenced(run, p, o'), Outside), t);
  }

  /** From any state in which a collection may take a spare workspace, one that dies between taking Git's
      lock off and removing the worktree, followed by one that cannot inspect the worktree, put the
      workspace back into the pool without the lock. */
  lemma InterruptedCollectionUnlocksThePool(s: System, a: nat, run: GcRun, p: Path, reason: Reason, now: int)
    requires a !in s.agents && Ready(s, a) && Due(s, run, p, reason) && ValidTimestamp(now)
    requires Eligible(s.world.state.workspaces[p]) && p in s.worktrees
    ensures exists t :: Leads(s, t) && p in t.world.state.workspaces && Eligible(t.world.state.workspaces[p]) && p !in t.locked
  {
    var u, o := CollectionDies(s, a, run, p, reason, now);
    var t := CollectionGivesUp(u, a, run, p, o, now);
    LeadsOn(s, u, t);
  }
}
