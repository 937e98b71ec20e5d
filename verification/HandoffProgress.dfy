/**
 Whatever crashes and failures left behind, a later garbage collection can finish: once no command holds
 a lock, every workspace the plan names can be removed, record, directory and tree, after its owner's
 processes and its own are seen gone.
 */
module HandoffProgress {
  import opened Common
  import opened RukState
  import opened Transitions
  import opened Validity
  import opened Calendar
  import opened Lifecycle
  import opened Fences
  import opened Ownership
  import opened Collection
  import opened Handoff
  import opened HandoffSafety
  import opened HandoffRuns

  // ---------------------------------------------------------------------------------------------
  // Runs that lead somewhere
  // ---------------------------------------------------------------------------------------------

  ghost predicate LeadsBy(s: System, acts: seq<Action>, t: System) { CanGo(s, acts) && Go(s, acts) == t }

  ghost predicate Leads(s: System, t: System) { exists acts :: LeadsBy(s, acts, t) }

  lemma {:induction false} GoOn(s: System, first: seq<Action>, t: System, second: seq<Action>, u: System)
    requires LeadsBy(s, first, t) && LeadsBy(t, second, u)
    ensures LeadsBy(s, first + second, u)
    decreases first
  {
    if first == [] {
      assert first + second == second;
    } else {
      GoOn(Next(s, first[0]), first[1..], t, second, u);
      assert (first + second)[1..] == first[1..] + second;
    }
  }

  lemma LeadsOn(s: System, t: System, u: System)
    requires Leads(s, t) && Leads(t, u)
    ensures Leads(s, u)
  {
    var first :| LeadsBy(s, first, t);
    var second :| LeadsBy(t, second, u);
    GoOn(s, first, t, second, u);
  }

  lemma OneStep(s: System, act: Action, t: System)
    requires Enabled(s, act) && t == Next(s, act)
    ensures Leads(s, t)
  {
    var acts := [act];
    assert acts[1..] == [];
    assert CanGo(t, []) && Go(t, []) == t;
    assert CanGo(s, acts) && Go(s, acts) == Go(t, acts[1..]);
    assert LeadsBy(s, acts, t);
  }

  // ---------------------------------------------------------------------------------------------
  // One command nobody is in the way of
  // ---------------------------------------------------------------------------------------------

  function With(s: System, a: nat, stage: Stage, inner: Inner): System { s.(agents := s.agents[a := Agent(stage, inner)]) }

  /** No other command holds a lock. */
  ghost predicate Unopposed(s: System, a: nat) { forall b :: b in s.agents && b != a ==> Holds(s.agents[b]) == {} }

  lemma CanAdvance(s: System, a: nat, stage: Stage, to: Stage)
    requires Advances(s, stage, to)
    ensures Leads(With(s, a, stage, Outside), With(s, a, to, Outside))
  {
    var t := With(s, a, stage, Outside);
    AdvancesLooksAtFilesOnly(s, t, stage, to);
    AdvancesFromHere(s, t, a, stage, to);
    OneStep(t, Advance(a, to), With(s, a, to, Outside));
  }

  lemma AdvancesFromHere(s: System, t: System, a: nat, stage: Stage, to: Stage)
    requires t == With(s, a, stage, Outside) && Advances(t, stage, to)
    ensures Enabled(t, Advance(a, to)) && Next(t, Advance(a, to)) == With(s, a, to, Outside)
  {
    assert t.agents[a := Agent(to, Outside)] == s.agents[a := Agent(to, Outside)];
  }

  lemma AdvancesLooksAtFilesOnly(s: System, t: System, stage: Stage, to: Stage)
    requires Advances(s, stage, to) && s.world == t.world && s.worktrees == t.worktrees && s.locked == t.locked
    ensures Advances(t, stage, to)
  {
  }

  /** It gets every lock it is entitled to ask for. */
  lemma CanTake(s: System, a: nat, stage: Stage)
    requires Unopposed(s, a) && StageWants(stage).Some?
    ensures Leads(With(s, a, stage, Outside), With(s, a, Granted(stage), Outside))
  {
    var t := With(s, a, stage, Outside);
    WantsWhatItLacks(stage);
    assert t.agents[a := Agent(Granted(stage), Outside)] == s.agents[a := Agent(Granted(stage), Outside)];
    OneStep(t, Take(a), With(s, a, Granted(stage), Outside));
  }

  lemma WantsWhatItLacks(stage: Stage)
    requires StageWants(stage).Some?
    ensures StageWants(stage).value !in Holds(Agent(stage, Outside))
  {
    var agent := Agent(stage, Outside);
    if StageWants(stage).value in Holds(agent) { WantsAboveHeld(agent, StageWants(stage).value, StageWants(stage).value); }
  }

  ghost predicate CanCall(s: System, a: nat, stage: Stage, c: Command, env: Env) {
    Unopposed(s, a) && StageWants(stage).None? && Calls(stage, c, s.world) && !(c.For? && c.edit.PublishPorts?) && !c.BeginPreparation?
    && FreshIds(s.world, env)
  }

  lemma CanAskForState(s: System, a: nat, stage: Stage)
    requires StageWants(stage).None?
    ensures Leads(With(s, a, stage, Outside), With(s, a, stage, WantsState))
  {
    var t, u := With(s, a, stage, Outside), With(s, a, stage, WantsState);
    assert t.agents[a := Agent(stage, WantsState)] == u.agents;
    OneStep(t, Open(a, WantsState), u);
  }

  lemma NoStageHoldsState(stage: Stage)
    ensures StateFile !in StageHolds(stage)
  {
  }

  lemma StateIsFree(s: System, a: nat, stage: Stage)
    requires Unopposed(s, a)
    ensures Free(With(s, a, stage, WantsState), StateFile)
  {
    NoStageHoldsState(stage);
  }

  lemma CanGetState(s: System, a: nat, stage: Stage)
    requires Unopposed(s, a) && StageWants(stage).None?
    ensures Leads(With(s, a, stage, WantsState), With(s, a, stage, InState))
  {
    var u, v := With(s, a, stage, WantsState), With(s, a, stage, InState);
    StateIsFree(s, a, stage);
    assert u.agents[a := Agent(stage, InState)] == v.agents;
    OneStep(u, Take(a), v);
  }

  lemma CanOpen(s: System, a: nat, stage: Stage)
    requires Unopposed(s, a) && StageWants(stage).None?
    ensures Leads(With(s, a, stage, Outside), With(s, a, stage, InState))
  {
    CanAskForState(s, a, stage);
    CanGetState(s, a, stage);
    LeadsOn(With(s, a, stage, Outside), With(s, a, stage, WantsState), With(s, a, stage, InState));
  }

  lemma CanUpdate(s: System, a: nat, stage: Stage, c: Command, env: Env)
    requires CanCall(s, a, stage, c, env)
    ensures Leads(With(s, a, stage, Outside),
                  With(s.(world := Step(s.world, c, env)), a, Then(stage, c, env, Apply(s.world.state, c, env)), Outside))
  {
    CanOpen(s, a, stage);
    var u := With(s, a, stage, InState);
    var v := With(s.(world := Step(s.world, c, env)), a, Then(stage, c, env, Apply(s.world.state, c, env)), Outside);
    assert u.agents[a := v.agents[a]] == v.agents;
    OneStep(u, Update(a, c, env), v);
    LeadsOn(With(s, a, stage, Outside), u, v);
  }

  lemma GitFromHere(s: System, t: System, a: nat, stage: Stage, op: GitOp)
    requires Drives(stage, op) && GitAllows(s, stage.path, op) && !op.Add? && t == With(s, a, stage, Outside)
    ensures Enabled(t, Git(a, op))
    ensures Next(t, Git(a, op)) ==
              With(s.(worktrees := Worktrees(s.worktrees, stage.path, op), locked := Locked(s.locked, stage.path, op)), a, AfterGit(stage, op), Outside)
  {
    assert t.agents[a := Agent(AfterGit(stage, op), Outside)] == s.agents[a := Agent(AfterGit(stage, op), Outside)];
  }

  lemma CanRunGit(s: System, a: nat, stage: Stage, op: GitOp)
    requires Drives(stage, op) && GitAllows(s, stage.path, op) && !op.Add?
    ensures Leads(With(s, a, stage, Outside),
                  With(s.(worktrees := Worktrees(s.worktrees, stage.path, op), locked := Locked(s.locked, stage.path, op)), a, AfterGit(stage, op), Outside))
  {
    var t := With(s, a, stage, Outside);
    GitFromHere(s, t, a, stage, op);
    OneStep(t, Git(a, op), Next(t, Git(a, op)));
  }

  // ---------------------------------------------------------------------------------------------
  // Calls nobody has made yet
  // ---------------------------------------------------------------------------------------------

  lemma {:induction false} SomeUnused(used: set<Id>) returns (id: Id)
    ensures forall u :: u in used ==> u < id
    decreases used
  {
    id := 0;
    if used != {} {
      var u :| u in used;
      var rest := SomeUnused(used - {u});
      id := if u < rest then rest else u + 1;
      forall v | v in used ensures v < id { assert v == u || v in used - {u}; }
    }
  }

  /** There are always identifiers nobody has drawn. */
  lemma FreshEnv(world: World, now: int) returns (env: Env)
    ensures FreshIds(world, env) && env.now == now
  {
    var id := SomeUnused(world.used);
    env := Env(now, id, id + 1, false);
  }

  ghost predicate Removed(t: System, p: Path) { p !in t.world.state.workspaces && p !in t.world.state.trees && p !in t.worktrees }

  ghost predicate CanGoAway(s: System, p: Path) { exists t :: Leads(s, t) && Removed(t, p) }

  lemma GoesAwayLater(s: System, t: System, p: Path)
    requires Leads(s, t) && CanGoAway(t, p)
    ensures CanGoAway(s, p)
  {
    var u :| Leads(t, u) && Removed(u, p);
    LeadsOn(s, t, u);
  }

  /** Nobody is in this command's way, and the state is in order. */
  ghost predicate Ready(s: System, a: nat) { WorldOk(s.world) && s.locked <= s.worktrees && Unopposed(s, a) }

  function After(s: System, world: World): System { s.(world := world) }

  // ---------------------------------------------------------------------------------------------
  // From the plan to the chosen workspace
  // ---------------------------------------------------------------------------------------------

  /** A workspace the plan names and collection may take: one whose lease is over needs force, and its
      acquisition has to be finished. */
  ghost predicate Due(s: System, run: GcRun, p: Path, reason: Reason) {
    && Classified(s.world, run, p, reason)
    && (reason.ExpiredAssignment? ==> run.force && !Acquiring(s.world.state.workspaces[p]))
  }

  predicate Acquiring(w: Workspace) { w.lifecycle.Assigned? && w.operation.Some? }

  lemma PlanLocks(s: System, a: nat, run: GcRun)
    requires Unopposed(s, a)
    ensures Leads(With(s, a, Rest, Outside), With(s, a, GcIdle(run), Outside))
  {
    CanAdvance(s, a, Rest, GcWantsPool(run));
    CanTake(s, a, GcWantsPool(run));
    CanTake(s, a, GcWantsWarm(run));
    LeadsOn(With(s, a, Rest, Outside), With(s, a, GcWantsPool(run), Outside), With(s, a, GcWantsWarm(run), Outside));
    LeadsOn(With(s, a, Rest, Outside), With(s, a, GcWantsWarm(run), Outside), With(s, a, GcIdle(run), Outside));
  }

  lemma PlanAdvances(s: System, run: GcRun, p: Path, reason: Reason, w: Workspace)
    requires Due(s, run, p, reason) && w == s.world.state.workspaces[p]
    ensures Advances(s, GcIdle(run), GcWantsHandover(run, p, reason))
    ensures Advances(s, GcLocked(run, p, reason), GcChosen(run, p, reason, w, {}))
  {
  }

  lemma PlanLocksWorkspace(s: System, a: nat, run: GcRun, p: Path, reason: Reason)
    requires Unopposed(s, a) && Advances(s, GcIdle(run), GcWantsHandover(run, p, reason))
    ensures Leads(With(s, a, GcIdle(run), Outside), With(s, a, GcLocked(run, p, reason), Outside))
  {
    var wants := GcWantsHandover(run, p, reason);
    CanAdvance(s, a, GcIdle(run), wants);
    CanTake(s, a, wants);
    LeadsOn(With(s, a, GcIdle(run), Outside), With(s, a, wants, Outside), With(s, a, GcLocked(run, p, reason), Outside));
  }

  lemma PlanChooses(s: System, a: nat, run: GcRun, p: Path, reason: Reason, chosen: Stage)
    requires Unopposed(s, a) && Advances(s, GcIdle(run), GcWantsHandover(run, p, reason))
    requires Advances(s, GcLocked(run, p, reason), chosen)
    ensures Leads(With(s, a, GcIdle(run), Outside), With(s, a, chosen, Outside))
  {
    var idle, locked := With(s, a, GcIdle(run), Outside), With(s, a, GcLocked(run, p, reason), Outside);
    PlanLocksWorkspace(s, a, run, p, reason);
    CanAdvance(s, a, GcLocked(run, p, reason), chosen);
    LeadsOn(idle, locked, With(s, a, chosen, Outside));
  }

  lemma PlanReaches(s: System, a: nat, run: GcRun, p: Path, reason: Reason, w: Workspace)
    requires a !in s.agents && Unopposed(s, a) && Due(s, run, p, reason) && w == s.world.state.workspaces[p]
    ensures Leads(s, With(s, a, GcChosen(run, p, reason, w, {}), Outside))
  {
    var rest, idle := With(s, a, Rest, Outside), With(s, a, GcIdle(run), Outside);
    OneStep(s, Enter(a), rest);
    PlanLocks(s, a, run);
    LeadsOn(s, rest, idle);
    PlanAdvances(s, run, p, reason, w);
    PlanChooses(s, a, run, p, reason, GcChosen(run, p, reason, w, {}));
    LeadsOn(s, idle, With(s, a, GcChosen(run, p, reason, w, {}), Outside));
  }

  // ---------------------------------------------------------------------------------------------
  // The fence, and what comes after it
  // ---------------------------------------------------------------------------------------------

  lemma FenceMutates(world: World, p: Path, w: Workspace, env: Env)
    requires p in world.state.workspaces && world.state.workspaces[p] == w && Edited(w, BeginCollection(w.updatedAt), env).Ok?
    ensures Mutated(world.state, At(p, BeginCollection(w.updatedAt)), env) ==
              Ok(State(world.state.trees, world.state.workspaces[p := Edited(w, BeginCollection(w.updatedAt), env).value], world.state.metrics))
  {
  }

  lemma FenceFits(world: World, p: Path, seen: int, env: Env)
    requires ValidTimestamp(env.now)
    ensures var c := At(p, BeginCollection(seen));
            CallerDataOk(world.state, c) && TimesFit(world.state.workspaces, c, env) && CountersFit(world.state.metrics, c)
  {
  }

  /** The fence always goes up over a drained workspace the plan names. */
  lemma FenceGoesUp(world: World, p: Path, env: Env)
    requires WorldOk(world) && FreshIds(world, env) && ValidTimestamp(env.now) && p in world.state.workspaces
    requires world.state.workspaces[p].assignment.None? && world.state.workspaces[p].processes == []
    ensures var c := At(p, BeginCollection(world.state.workspaces[p].updatedAt));
            Apply(world.state, c, env).Ok? && p in Apply(world.state, c, env).value.workspaces
            && exists o :: Collecting(Apply(world.state, c, env).value.workspaces[p], o)
  {
    var w := world.state.workspaces[p];
    var c := At(p, BeginCollection(w.updatedAt));
    assert ValidWorkspace(w);
    FencedRecord(w, env);
    FenceMutates(world, p, w, env);
    FenceFits(world, p, w.updatedAt, env);
    GuardedCallsEncode(world, c, env);
    var next := Mutated(world.state, c, env).value;
    assert Collecting(next.workspaces[p], next.workspaces[p].operation.value);
  }

  lemma FencedRecord(w: Workspace, env: Env)
    requires ValidWorkspace(w) && w.assignment.None? && w.processes == [] && ValidTimestamp(env.now)
    ensures var e := Edited(w, BeginCollection(w.updatedAt), env);
            e.Ok? && e.value.operation.Some? && Collecting(e.value, e.value.operation.value)
  {
    ValidIsSoundInCalendar(w);
  }

  lemma DeletionApplies(world: World, p: Path, o: Id, env: Env)
    requires WorldOk(world) && FreshIds(world, env) && p in world.state.workspaces && Collecting(world.state.workspaces[p], o)
    ensures Apply(world.state, DeleteRecord(p, o), env) == Ok(world.state.(workspaces := world.state.workspaces - {p}))
  {
    assert ValidWorkspace(world.state.workspaces[p]) && KindOk(world, world.state.workspaces[p]);
    var c := DeleteRecord(p, o);
    assert Mutated(world.state, c, env) == Ok(world.state.(workspaces := world.state.workspaces - {p}));
    GuardedCallsEncode(world, c, env);
  }

  function WithoutWorktree(s: System, p: Path): System { s.(worktrees := s.worktrees - {p}, locked := s.locked - {p}) }

  /** What is left once directory and tree entry are gone. */
  ghost function Bared(s: System, p: Path, env: Env): System { WithoutWorktree(s, p).(world := Step(s.world, DropTree(p), env)) }

  function WithoutLock(s: System, p: Path): System { s.(locked := s.locked - {p}) }

  lemma LockGoes(s: System, a: nat, run: GcRun, p: Path, o: Id)
    requires p in s.worktrees
    ensures Leads(With(s, a, GcFenced(run, p, o), Outside), With(WithoutLock(s, p), a, GcUnlocked(run, p, o), Outside))
  {
    CanRunGit(s, a, GcFenced(run, p, o), Unlock);
  }

  lemma DirectoryGoes(s: System, a: nat, run: GcRun, p: Path, o: Id)
    requires p in s.worktrees && p !in s.locked
    ensures Leads(With(s, a, GcUnlocked(run, p, o), Outside), With(s.(worktrees := s.worktrees - {p}), a, GcWorktreeGone(run, p, o), Outside))
  {
    CanRunGit(s, a, GcUnlocked(run, p, o), Remove);
  }

  /** A directory that is there is unlocked and removed; one that is not is passed over. */
  lemma WorktreeGoes(s: System, a: nat, run: GcRun, p: Path, o: Id)
    requires s.locked <= s.worktrees
    ensures Leads(With(s, a, GcFenced(run, p, o), Outside), With(WithoutWorktree(s, p), a, GcWorktreeGone(run, p, o), Outside))
  {
    if p in s.worktrees {
      LockGoes(s, a, run, p, o);
      DirectoryGoes(WithoutLock(s, p), a, run, p, o);
      LeadsOn(With(s, a, GcFenced(run, p, o), Outside), With(WithoutLock(s, p), a, GcUnlocked(run, p, o), Outside),
              With(WithoutWorktree(s, p), a, GcWorktreeGone(run, p, o), Outside));
    } else {
      CanAdvance(s, a, GcFenced(run, p, o), GcWorktreeGone(run, p, o));
      assert WithoutWorktree(s, p) == s;
    }
  }

  lemma TreeGoes(s: System, a: nat, run: GcRun, p: Path, o: Id, env: Env)
    requires Unopposed(s, a) && WorldOk(s.world) && FreshIds(s.world, env)
    ensures Leads(With(s, a, GcWorktreeGone(run, p, o), Outside), With(s.(world := Step(s.world, DropTree(p), env)), a, GcTreeGone(run, p, o), Outside))
  {
    TreeDropApplies(s.world, p, env);
    CanUpdate(s, a, GcWorktreeGone(run, p, o), DropTree(p), env);
  }

  lemma DirectoryAndTreeGo(s: System, a: nat, run: GcRun, p: Path, o: Id, env: Env)
    requires Unopposed(s, a) && WorldOk(s.world) && s.locked <= s.worktrees && FreshIds(s.world, env)
    ensures Leads(With(s, a, GcFenced(run, p, o), Outside), With(Bared(s, p, env), a, GcTreeGone(run, p, o), Outside))
  {
    var bare := WithoutWorktree(s, p);
    WorktreeGoes(s, a, run, p, o);
    TreeGoes(bare, a, run, p, o, env);
    LeadsOn(With(s, a, GcFenced(run, p, o), Outside), With(bare, a, GcWorktreeGone(run, p, o), Outside),
            With(Bared(s, p, env), a, GcTreeGone(run, p, o), Outside));
  }

  lemma DeletionCall(run: GcRun, p: Path, o: Id, env: Env, world: World, next: Result<State, Refusal>)
    ensures Calls(GcTreeGone(run, p, o), DeleteRecord(p, o), world)
    ensures Then(GcTreeGone(run, p, o), DeleteRecord(p, o), env, next) == GcFinished(run, p)
  {
  }

  lemma RecordGoes(s: System, a: nat, run: GcRun, p: Path, o: Id, env: Env)
    requires WorldOk(s.world) && FreshIds(s.world, env) && p in s.world.state.workspaces && Collecting(s.world.state.workspaces[p], o)
    requires Unopposed(s, a) && p !in s.worktrees && p !in s.world.state.trees
    ensures CanGoAway(With(s, a, GcTreeGone(run, p, o), Outside), p)
  {
    var c := DeleteRecord(p, o);
    DeletionCall(run, p, o, env, s.world, Apply(s.world.state, c, env));
    CanUpdate(s, a, GcTreeGone(run, p, o), c, env);
    DeletionApplies(s.world, p, o, env);
    assert Removed(With(s.(world := Step(s.world, c, env)), a, GcFinished(run, p), Outside), p);
  }

  /** Collection of a fenced workspace runs to the end: directory, tree entry, record. */
  lemma FencedGoes(s: System, a: nat, run: GcRun, p: Path, o: Id)
    requires Ready(s, a) && p in s.world.state.workspaces && Collecting(s.world.state.workspaces[p], o)
    ensures CanGoAway(With(s, a, GcFenced(run, p, o), Outside), p)
  {
    var second := FreshEnv(s.world, 0);
    var start, bared := With(s, a, GcFenced(run, p, o), Outside), Bared(s, p, second);
    DirectoryAndTreeGo(s, a, run, p, o, second);
    StepKeepsWorldOk(s.world, DropTree(p), second);
    TreeDropApplies(s.world, p, second);
    var third := FreshEnv(bared.world, 0);
    RecordGoes(bared, a, run, p, o, third);
    GoesAwayLater(start, With(bared, a, GcTreeGone(run, p, o), Outside), p);
  }

  lemma FenceCall(chosen: Stage, env: Env, world: World, next: Result<State, Refusal>, o: Id)
    requires chosen.GcChosen? && chosen.seen.assignment.None? && next.Ok?
    requires chosen.path in next.value.workspaces && Collecting(next.value.workspaces[chosen.path], o)
    ensures Calls(chosen, At(chosen.path, BeginCollection(chosen.seen.updatedAt)), world)
    ensures Then(chosen, At(chosen.path, BeginCollection(chosen.seen.updatedAt)), env, next) == GcFenced(chosen.run, chosen.path, o)
  {
  }

  /** The command saw the record as it is, and no process of it is left. */
  ghost predicate Bare(s: System, chosen: Stage) {
    && chosen.GcChosen? && chosen.path in s.world.state.workspaces && chosen.seen == s.world.state.workspaces[chosen.path]
    && chosen.seen.assignment.None? && chosen.seen.processes == []
  }

  lemma ChosenIsFenced(s: System, a: nat, chosen: Stage, env: Env) returns (fenced: System, o: Id)
    requires Ready(s, a) && Bare(s, chosen) && FreshIds(s.world, env) && ValidTimestamp(env.now)
    ensures fenced == After(s, Step(s.world, At(chosen.path, BeginCollection(chosen.seen.updatedAt)), env)) && WorldOk(fenced.world)
    ensures chosen.path in fenced.world.state.workspaces && Collecting(fenced.world.state.workspaces[chosen.path], o)
    ensures Leads(With(s, a, chosen, Outside), With(fenced, a, GcFenced(chosen.run, chosen.path, o), Outside))
  {
    var c := At(chosen.path, BeginCollection(chosen.seen.updatedAt));
    FenceGoesUp(s.world, chosen.path, env);
    o :| Collecting(Apply(s.world.state, c, env).value.workspaces[chosen.path], o);
    fenced := After(s, Step(s.world, c, env));
    FenceCall(chosen, env, s.world, Apply(s.world.state, c, env), o);
    CanUpdate(s, a, chosen, c, env);
    StepKeepsWorldOk(s.world, c, env);
  }

  lemma BareGoes(s: System, a: nat, chosen: Stage, now: int)
    requires Ready(s, a) && Bare(s, chosen) && ValidTimestamp(now)
    ensures CanGoAway(With(s, a, chosen, Outside), chosen.path)
  {
    var env := FreshEnv(s.world, now);
    var fenced, o := ChosenIsFenced(s, a, chosen, env);
    FencedGoes(fenced, a, chosen.run, chosen.path, o);
    GoesAwayLater(With(s, a, chosen, Outside), With(fenced, a, GcFenced(chosen.run, chosen.path, o), Outside), chosen.path);
  }

  /** From the start of a collection to the fence over the workspace. */
  lemma CollectionFences(s: System, a: nat, run: GcRun, p: Path, reason: Reason, env: Env) returns (fenced: System, o: Id)
    requires a !in s.agents && Ready(s, a) && Due(s, run, p, reason) && FreshIds(s.world, env) && ValidTimestamp(env.now)
    requires s.world.state.workspaces[p].assignment.None? && s.world.state.workspaces[p].processes == []
    ensures fenced == After(s, Step(s.world, At(p, BeginCollection(s.world.state.workspaces[p].updatedAt)), env)) && WorldOk(fenced.world)
    ensures p in fenced.world.state.workspaces && Collecting(fenced.world.state.workspaces[p], o)
    ensures Leads(s, With(fenced, a, GcFenced(run, p, o), Outside))
  {
    var w := s.world.state.workspaces[p];
    var chosen := GcChosen(run, p, reason, w, {});
    PlanReaches(s, a, run, p, reason, w);
    fenced, o := ChosenIsFenced(s, a, chosen, env);
    LeadsOn(s, With(s, a, chosen, Outside), With(fenced, a, GcFenced(run, p, o), Outside));
  }

  // ---------------------------------------------------------------------------------------------
  // Unassigned workspaces with processes
  // ---------------------------------------------------------------------------------------------

  function Untracking(w: Workspace): Edit
    requires w.processes != []
  {
    RemoveUnassigned(w.lifecycle, w.operation, w.updatedAt, w.processes[0].pid, w.processes[0].startedAt)
  }

  function Less(w: Workspace, now: int): Workspace
    requires w.processes != []
  {
    w.(processes := w.processes[1..], updatedAt := now)
  }

  lemma UntrackingEdits(w: Workspace, env: Env)
    requires ValidWorkspace(w) && w.assignment.None? && w.processes != []
    ensures Edited(w, Untracking(w), env) == Ok(Less(w, env.now))
  {
    assert FindProcess(w.processes, w.processes[0].pid, w.processes[0].startedAt) == 0;
    assert Without(w.processes, 0) == w.processes[1..];
  }

  lemma UntrackingFits(world: World, p: Path, w: Workspace, env: Env)
    requires p in world.state.workspaces && world.state.workspaces[p] == w && w.processes != [] && ValidTimestamp(env.now)
    ensures var c := At(p, Untracking(w));
            CallerDataOk(world.state, c) && TimesFit(world.state.workspaces, c, env) && CountersFit(world.state.metrics, c)
  {
  }

  lemma UntrackingMutates(world: World, p: Path, w: Workspace, w': Workspace, e: Edit, env: Env)
    requires p in world.state.workspaces && world.state.workspaces[p] == w && PathEdit(e) && Edited(w, e, env) == Ok(w')
    ensures Mutated(world.state, At(p, e), env) ==
              Ok(State(world.state.trees, world.state.workspaces[p := w'], Count(world.state.metrics, At(p, e))))
  {
  }

  lemma UntrackingApplies(world: World, p: Path, w: Workspace, env: Env)
    requires WorldOk(world) && FreshIds(world, env) && ValidTimestamp(env.now)
    requires p in world.state.workspaces && world.state.workspaces[p] == w && w.assignment.None? && w.processes != []
    ensures var next := Apply(world.state, At(p, Untracking(w)), env);
            next.Ok? && next.value.workspaces == world.state.workspaces[p := Less(w, env.now)]
  {
    UntrackingEdits(w, env);
    UntrackingMutates(world, p, w, Less(w, env.now), Untracking(w), env);
    UntrackingFits(world, p, w, env);
    GuardedCallsEncode(world, At(p, Untracking(w)), env);
  }

  lemma UntrackingCall(chosen: Stage, env: Env, world: World, next: Result<State, Refusal>)
    requires chosen.GcChosen? && chosen.seen.assignment.None? && chosen.seen.processes != [] && chosen.seen.processes[0] in chosen.gone
    requires next.Ok? && chosen.path in next.value.workspaces
    ensures var c := At(chosen.path, Untracking(chosen.seen));
            Calls(chosen, c, world) && Then(chosen, c, env, next) == chosen.(seen := next.value.workspaces[chosen.path])
  {
  }

  ghost predicate Chosen(s: System, chosen: Stage) {
    && chosen.GcChosen? && chosen.path in s.world.state.workspaces && chosen.seen == s.world.state.workspaces[chosen.path]
    && chosen.seen.assignment.None?
  }

  function Seen(chosen: Stage, gone: Process): Stage
    requires chosen.GcChosen?
  {
    GcChosen(chosen.run, chosen.path, chosen.reason, chosen.seen, chosen.gone + {gone})
  }

  lemma ProcessIsSeenGone(s: System, a: nat, chosen: Stage)
    requires chosen.GcChosen? && chosen.seen.assignment.None? && chosen.seen.processes != []
    ensures Leads(With(s, a, chosen, Outside), With(s, a, Seen(chosen, chosen.seen.processes[0]), Outside))
  {
    CanAdvance(s, a, chosen, Seen(chosen, chosen.seen.processes[0]));
  }

  /** One process seen gone and untracked. */
  lemma OneProcessGoes(s: System, a: nat, chosen: Stage, env: Env) returns (t: System, after: Stage)
    requires Ready(s, a) && Chosen(s, chosen) && chosen.seen.processes != [] && FreshIds(s.world, env) && ValidTimestamp(env.now)
    ensures Ready(t, a) && Chosen(t, after) && after.path == chosen.path && |after.seen.processes| == |chosen.seen.processes| - 1
    ensures Leads(With(s, a, chosen, Outside), With(t, a, after, Outside))
  {
    var looked, c := Seen(chosen, chosen.seen.processes[0]), At(chosen.path, Untracking(chosen.seen));
    ProcessIsSeenGone(s, a, chosen);
    UntrackingApplies(s.world, chosen.path, chosen.seen, env);
    UntrackingCall(looked, env, s.world, Apply(s.world.state, c, env));
    CanUpdate(s, a, looked, c, env);
    StepKeepsWorldOk(s.world, c, env);
    t := After(s, Step(s.world, c, env));
    after := looked.(seen := t.world.state.workspaces[chosen.path]);
    LeadsOn(With(s, a, chosen, Outside), With(s, a, looked, Outside), With(t, a, after, Outside));
  }

  lemma {:induction false} UnassignedGoes(s: System, a: nat, chosen: Stage, now: int)
    requires Ready(s, a) && Chosen(s, chosen) && ValidTimestamp(now)
    ensures CanGoAway(With(s, a, chosen, Outside), chosen.path)
    decreases |chosen.seen.processes|
  {
    if chosen.seen.processes == [] {
      BareGoes(s, a, chosen, now);
    } else {
      var env := FreshEnv(s.world, now);
      var t, after := OneProcessGoes(s, a, chosen, env);
      UnassignedGoes(t, a, after, now);
      GoesAwayLater(With(s, a, chosen, Outside), With(t, a, after, Outside), chosen.path);
    }
  }

  // ---------------------------------------------------------------------------------------------
  // Assigned workspaces
  // ---------------------------------------------------------------------------------------------

  /** The drain has got this far with the record. */
  ghost predicate DrainsHere(s: System, stage: Stage) {
    && stage.Draining? && stage.path in s.world.state.workspaces
    && var w := s.world.state.workspaces[stage.path];
       w.lifecycle.Returning? && w.Carries(stage.id) && stage.done <= |stage.tracked| && w.processes == stage.tracked[stage.done..]
  }

  lemma IdCallApplies(world: World, p: Path, id: Id, e: Edit, w': Workspace, env: Env)
    requires WorldOk(world) && FreshIds(world, env) && p in world.state.workspaces && world.state.workspaces[p].Carries(id)
    requires AssignmentEdit(e) && !e.PublishPorts? && Edited(world.state.workspaces[p], e, env) == Ok(w')
    requires Proper(world.state.workspaces[p], e) && Fits(world.state.workspaces[p], e, env) && CountersFit(world.state.metrics, For(id, e))
    ensures var next := Apply(world.state, For(id, e), env);
            next.Ok? && next.value.workspaces == world.state.workspaces[p := w']
  {
    CarriedOnlyAt(world, p);
    IdMutates(world, p, id, e, w', env);
    IdFits(world, p, id, e, env);
    GuardedCallsEncode(world, For(id, e), env);
  }

  lemma IdMutates(world: World, p: Path, id: Id, e: Edit, w': Workspace, env: Env)
    requires OnlyAt(world, p, id) && p in world.state.workspaces && world.state.workspaces[p].Carries(id)
    requires AssignmentEdit(e) && !e.PublishPorts? && Edited(world.state.workspaces[p], e, env) == Ok(w')
    ensures Mutated(world.state, For(id, e), env) ==
              Ok(State(world.state.trees, world.state.workspaces[p := w'], Count(world.state.metrics, For(id, e))))
  {
    assert Holder(world.state.workspaces, id) == Some(p);
  }

  lemma IdFits(world: World, p: Path, id: Id, e: Edit, env: Env)
    requires OnlyAt(world, p, id) && p in world.state.workspaces && world.state.workspaces[p].Carries(id)
    requires Proper(world.state.workspaces[p], e) && Fits(world.state.workspaces[p], e, env)
    ensures CallerDataOk(world.state, For(id, e)) && TimesFit(world.state.workspaces, For(id, e), env)
  {
    assert Holder(world.state.workspaces, id) == Some(p);
  }

  lemma DrainingEdits(w: Workspace, id: Id, r: Process, env: Env)
    requires w.lifecycle.Returning? && w.Carries(id) && w.processes != [] && r == w.processes[0] && ValidTimestamp(env.now)
    ensures Edited(w, RemoveProcess(r.pid, r.startedAt), env) == Ok(Less(w, env.now))
    ensures Proper(w, RemoveProcess(r.pid, r.startedAt)) && Fits(w, RemoveProcess(r.pid, r.startedAt), env)
  {
    assert FindProcess(w.processes, r.pid, r.startedAt) == 0;
    assert Without(w.processes, 0) == w.processes[1..];
  }

  lemma DrainCall(stage: Stage, env: Env, world: World, next: Result<State, Refusal>)
    requires stage.Draining? && stage.done < |stage.tracked| && stage.tracked[stage.done] in stage.gone && next.Ok?
    ensures var r := stage.tracked[stage.done];
            var c := For(stage.id, RemoveProcess(r.pid, r.startedAt));
            Calls(stage, c, world) && Then(stage, c, env, next) == stage.(done := stage.done + 1)
  {
  }

  function SeenDrained(stage: Stage, r: Process): Stage
    requires stage.Draining?
  {
    Draining(stage.sweep, stage.path, stage.id, stage.tracked, stage.done, stage.gone + {r})
  }

  ghost predicate OnlyRecordMoved(s: System, t: System, p: Path) {
    && p in t.world.state.workspaces && t.world.state.workspaces == s.world.state.workspaces[p := t.world.state.workspaces[p]]
    && t.worktrees == s.worktrees && t.locked == s.locked
  }

  lemma GoneIsUntracked(s: System, a: nat, looked: Stage, w: Workspace, r: Process, env: Env) returns (t: System, after: Stage)
    requires Ready(s, a) && DrainsHere(s, looked) && looked.done < |looked.tracked| && r == looked.tracked[looked.done] && r in looked.gone
    requires w == s.world.state.workspaces[looked.path] && Edited(w, RemoveProcess(r.pid, r.startedAt), env) == Ok(Less(w, env.now))
    requires Proper(w, RemoveProcess(r.pid, r.startedAt)) && Fits(w, RemoveProcess(r.pid, r.startedAt), env) && FreshIds(s.world, env)
    ensures Ready(t, a) && DrainsHere(t, after) && after == looked.(done := looked.done + 1)
    ensures OnlyRecordMoved(s, t, looked.path)
    ensures Leads(With(s, a, looked, Outside), With(t, a, after, Outside))
  {
    var c := For(looked.id, RemoveProcess(r.pid, r.startedAt));
    IdCallApplies(s.world, looked.path, looked.id, c.edit, Less(w, env.now), env);
    DrainCall(looked, env, s.world, Apply(s.world.state, c, env));
    CanUpdate(s, a, looked, c, env);
    StepKeepsWorldOk(s.world, c, env);
    t, after := After(s, Step(s.world, c, env)), looked.(done := looked.done + 1);
  }

  lemma DrainLooks(s: System, a: nat, stage: Stage, r: Process, looked: Stage)
    requires DrainsHere(s, stage) && stage.done < |stage.tracked| && r == stage.tracked[stage.done] && looked == SeenDrained(stage, r)
    ensures Leads(With(s, a, stage, Outside), With(s, a, looked, Outside)) && DrainsHere(s, looked)
  {
    CanAdvance(s, a, stage, looked);
  }

  lemma OneDrains(s: System, a: nat, stage: Stage, env: Env) returns (t: System, after: Stage)
    requires Ready(s, a) && DrainsHere(s, stage) && stage.done < |stage.tracked| && FreshIds(s.world, env) && ValidTimestamp(env.now)
    ensures Ready(t, a) && DrainsHere(t, after) && after == Draining(stage.sweep, stage.path, stage.id, stage.tracked, stage.done + 1, stage.gone + {stage.tracked[stage.done]})
    ensures OnlyRecordMoved(s, t, stage.path)
    ensures Leads(With(s, a, stage, Outside), With(t, a, after, Outside))
  {
    var w, r := s.world.state.workspaces[stage.path], stage.tracked[stage.done];
    var looked := SeenDrained(stage, r);
    DrainLooks(s, a, stage, r, looked);
    DrainingEdits(w, stage.id, r, env);
    t, after := GoneIsUntracked(s, a, looked, w, r, env);
    LeadsOn(With(s, a, stage, Outside), With(s, a, looked, Outside), With(t, a, after, Outside));
  }

  function Spare(w: Workspace, now: int): Workspace {
    w.(lifecycle := Available, operation := None, assignment := None, updatedAt := now, availableAt := Some(now), failure := None)
  }

  lemma FinishCall(stage: Stage, env: Env, world: World, next: Result<State, Refusal>)
    requires stage.Draining? && stage.sweep.Some? && stage.done == |stage.tracked| && next.Ok? && stage.path in next.value.workspaces
    ensures var c := For(stage.id, FinishReturn);
            && Calls(stage, c, world)
            && Then(stage, c, env, next) == GcChosen(stage.sweep.value, stage.path, UnusedCapacity, next.value.workspaces[stage.path], {})
  {
  }

  lemma DrainFinishes(s: System, a: nat, stage: Stage, env: Env) returns (t: System, after: Stage)
    requires Ready(s, a) && DrainsHere(s, stage) && stage.sweep.Some? && stage.done == |stage.tracked| && FreshIds(s.world, env) && ValidTimestamp(env.now)
    ensures Ready(t, a) && Chosen(t, after) && after.path == stage.path
    ensures Leads(With(s, a, stage, Outside), With(t, a, after, Outside))
  {
    var w, c := s.world.state.workspaces[stage.path], For(stage.id, FinishReturn);
    IdCallApplies(s.world, stage.path, stage.id, FinishReturn, Spare(w, env.now), env);
    FinishCall(stage, env, s.world, Apply(s.world.state, c, env));
    CanUpdate(s, a, stage, c, env);
    StepKeepsWorldOk(s.world, c, env);
    t := After(s, Step(s.world, c, env));
    after := GcChosen(stage.sweep.value, stage.path, UnusedCapacity, t.world.state.workspaces[stage.path], {});
  }

  lemma {:induction false} DrainedGoes(s: System, a: nat, stage: Stage, now: int)
    requires Ready(s, a) && DrainsHere(s, stage) && stage.sweep.Some? && ValidTimestamp(now)
    ensures CanGoAway(With(s, a, stage, Outside), stage.path)
    decreases |stage.tracked| - stage.done
  {
    var env := FreshEnv(s.world, now);
    if stage.done == |stage.tracked| {
      var t, after := DrainFinishes(s, a, stage, env);
      UnassignedGoes(t, a, after, now);
      GoesAwayLater(With(s, a, stage, Outside), With(t, a, after, Outside), stage.path);
    } else {
      var t, after := OneDrains(s, a, stage, env);
      DrainedGoes(t, a, after, now);
      GoesAwayLater(With(s, a, stage, Outside), With(t, a, after, Outside), stage.path);
    }
  }

  function Fenced(w: Workspace, now: int): Workspace {
    if w.lifecycle.Returning? then w else w.(lifecycle := Returning, failure := None, updatedAt := now)
  }

  /** How collection asks for an assigned workspace. */
  function ReturnEdit(run: GcRun, reason: Reason, w: Workspace): Edit {
    if reason.AbandonedAcquisition? then BeginReturn(w.operation, None, Some(w.updatedAt))
    else BeginReturn(None, Some(run.now), Some(w.updatedAt))
  }

  /** Over an assigned workspace the plan names, the return is accepted exactly when the acquisition is
      finished or abandoned: an expired lease alone does not end an acquisition that is still young. */
  lemma ReturnsExactlyUnlessAcquiring(w: Workspace, run: GcRun, reason: Reason, env: Env)
    requires ValidWorkspace(w) && w.assignment.Some? && Classify(w, run.cutoff, run.now, true) == Ok(Some(reason))
    ensures Edited(w, ReturnEdit(run, reason, w), env) == Ok(Fenced(w, env.now)) <==> !(reason.ExpiredAssignment? && Acquiring(w))
    ensures reason.ExpiredAssignment? && Acquiring(w) ==> Edited(w, ReturnEdit(run, reason, w), env) == Err(AcquisitionInProgress)
  {
  }

  lemma ReturnFits(w: Workspace, run: GcRun, reason: Reason, env: Env)
    requires ValidTimestamp(env.now)
    ensures Proper(w, ReturnEdit(run, reason, w)) && Fits(w, ReturnEdit(run, reason, w), env)
  {
  }

  lemma ReturnCall(chosen: Stage, c: Command, env: Env, world: World, next: Result<State, Refusal>)
    requires chosen.GcChosen? && chosen.seen.assignment.Some? && next.Ok? && chosen.path in next.value.workspaces
    requires c == For(chosen.seen.assignment.value.id, ReturnEdit(chosen.run, chosen.reason, chosen.seen))
    requires chosen.reason.ExpiredAssignment? ==> chosen.run.force
    requires chosen.reason.ExpiredAssignment? || (chosen.reason.AbandonedAcquisition? && chosen.seen.operation.Some?)
    ensures Calls(chosen, c, world)
    ensures Then(chosen, c, env, next) == Draining(Some(chosen.run), chosen.path, c.id, next.value.workspaces[chosen.path].processes, 0, {})
  {
  }

  lemma AssignedReasons(w: Workspace, run: GcRun, reason: Reason)
    requires ValidWorkspace(w) && w.assignment.Some? && Classify(w, run.cutoff, run.now, true) == Ok(Some(reason))
    ensures reason.ExpiredAssignment? || (reason.AbandonedAcquisition? && w.operation.Some?)
  {
  }

  lemma ReturnStartsHere(s: System, a: nat, chosen: Stage, env: Env) returns (t: System, after: Stage)
    requires Ready(s, a) && chosen.GcChosen? && Due(s, chosen.run, chosen.path, chosen.reason)
    requires chosen.seen == s.world.state.workspaces[chosen.path] && chosen.seen.assignment.Some?
    requires FreshIds(s.world, env) && ValidTimestamp(env.now)
    ensures Ready(t, a) && DrainsHere(t, after) && after.path == chosen.path && after.sweep.Some?
    ensures Leads(With(s, a, chosen, Outside), With(t, a, after, Outside))
  {
    var w, e := chosen.seen, ReturnEdit(chosen.run, chosen.reason, chosen.seen);
    var c := For(w.assignment.value.id, e);
    assert ValidWorkspace(w);
    ReturnsExactlyUnlessAcquiring(w, chosen.run, chosen.reason, env);
    ReturnFits(w, chosen.run, chosen.reason, env);
    AssignedReasons(w, chosen.run, chosen.reason);
    IdCallApplies(s.world, chosen.path, c.id, e, Fenced(w, env.now), env);
    ReturnCall(chosen, c, env, s.world, Apply(s.world.state, c, env));
    CanUpdate(s, a, chosen, c, env);
    StepKeepsWorldOk(s.world, c, env);
    t := After(s, Step(s.world, c, env));
    after := Draining(Some(chosen.run), chosen.path, c.id, t.world.state.workspaces[chosen.path].processes, 0, {});
  }

  lemma AssignedGoes(s: System, a: nat, chosen: Stage, now: int)
    requires Ready(s, a) && chosen.GcChosen? && Due(s, chosen.run, chosen.path, chosen.reason) && ValidTimestamp(now)
    requires chosen.seen == s.world.state.workspaces[chosen.path] && chosen.seen.assignment.Some?
    ensures CanGoAway(With(s, a, chosen, Outside), chosen.path)
  {
    var env := FreshEnv(s.world, now);
    var t, after := ReturnStartsHere(s, a, chosen, env);
    DrainedGoes(t, a, after, now);
    GoesAwayLater(With(s, a, chosen, Outside), With(t, a, after, Outside), chosen.path);
  }

  /** Nothing is stuck: when no command holds a lock, a collection can take away completely any workspace
      its plan names, assigned or not, whatever processes it still tracks; only an expired lease with a
      young acquisition has to wait. */
  lemma DueIsRemoved(s: System, a: nat, run: GcRun, p: Path, reason: Reason, now: int)
    requires a !in s.agents && Ready(s, a) && Due(s, run, p, reason) && ValidTimestamp(now)
    ensures exists t :: Leads(s, t) && Removed(t, p)
  {
    var chosen := GcChosen(run, p, reason, s.world.state.workspaces[p], {});
    PlanReaches(s, a, run, p, reason, chosen.seen);
    if chosen.seen.assignment.Some? { AssignedGoes(s, a, chosen, now); } else { UnassignedGoes(s, a, chosen, now); }
    GoesAwayLater(s, With(s, a, chosen, Outside), p);
  }
}
