/**
 Whatever crashes and failures left behind, the commands that hand workspaces out and take them back can
 finish: once no command holds a lock, a spare workspace can be acquired, a new one made and acquired, a
 spare one made, and a finished assignment released, each all the way to its end.
 */
module AcquireProgress {
  import opened Common
  import opened RukState
  import opened Transitions
  import opened Validity
  import opened Calendar
  import opened Lifecycle
  import opened Fences
  import opened Ownership
  import opened Handoff
  import opened HandoffSafety
  import opened HandoffRuns
  import opened HandoffProgress
  import Effects
  import Text

  /** The command has come to rest, having changed of the records only this one. */
  ghost predicate Settled(s: System, t: System, a: nat, p: Path) {
    && a in t.agents && t.agents[a] == Agent(Rest, Outside)
    && p in t.world.state.workspaces && t.world.state.workspaces == s.world.state.workspaces[p := t.world.state.workspaces[p]]
  }

  /** Assigned to whom the input says, under an identifier nobody used before, with no acquisition left open. */
  ghost predicate HandedOut(s: System, t: System, p: Path, input: AssignmentInput) {
    && p in t.world.state.workspaces
    && var w := t.world.state.workspaces[p];
       && w.lifecycle.Assigned? && w.operation == None && w.assignment.Some?
       && w.assignment.value.id !in s.world.used && w.assignment.value.owner == input.owner && w.assignment.value.hostname == input.hostname
  }

  /** The input names an owner and a host, and an end this clock can record. */
  predicate Askable(input: AssignmentInput, now: int) {
    GoodInput(input) && ValidTimestamp(now) && Expiry(input, now).Ok? && (input.lease <= 0 ==> input.expiresAt <= MAX_TIME)
  }

  predicate RoomToCount(m: Metrics) { m.acquisitions < MAX_SAFE_INTEGER && m.reuses < MAX_SAFE_INTEGER }

  // ---------------------------------------------------------------------------------------------
  // Steps
  // ---------------------------------------------------------------------------------------------

  lemma LeadsFurther(s: System, a: nat, first: Stage, second: Stage, third: Stage)
    requires Leads(With(s, a, first, Outside), With(s, a, second, Outside)) && Leads(With(s, a, second, Outside), With(s, a, third, Outside))
    ensures Leads(With(s, a, first, Outside), With(s, a, third, Outside))
  {
    LeadsOn(With(s, a, first, Outside), With(s, a, second, Outside), With(s, a, third, Outside));
  }

  lemma ReachesSelecting(s: System, a: nat)
    requires Unopposed(s, a)
    ensures Leads(With(s, a, Rest, Outside), With(s, a, Selecting, Outside))
  {
    CanAdvance(s, a, Rest, WantsPrimary);
    CanTake(s, a, WantsPrimary);
    CanTake(s, a, WantsPool);
    LeadsFurther(s, a, Rest, WantsPrimary, WantsPool);
    LeadsFurther(s, a, Rest, WantsPool, Selecting);
  }

  lemma ReachesReserving(s: System, a: nat, p: Path)
    requires Unopposed(s, a) && Wanted(s.world.state.workspaces, None, p)
    ensures Leads(With(s, a, Rest, Outside), With(s, a, Reserving(p), Outside))
  {
    ReachesSelecting(s, a);
    CanAdvance(s, a, Selecting, WantsReserved(p));
    CanTake(s, a, WantsReserved(p));
    LeadsFurther(s, a, Rest, Selecting, WantsReserved(p));
    LeadsFurther(s, a, Rest, WantsReserved(p), Reserving(p));
  }

  lemma ReachesBeginning(s: System, a: nat, p: Path)
    requires Unopposed(s, a)
    ensures Leads(With(s, a, Rest, Outside), With(s, a, Beginning(p), Outside))
  {
    ReachesSelecting(s, a);
    CanAdvance(s, a, Selecting, WantsFresh(p));
    CanTake(s, a, WantsFresh(p));
    LeadsFurther(s, a, Rest, Selecting, WantsFresh(p));
    LeadsFurther(s, a, Rest, WantsFresh(p), Beginning(p));
  }

  lemma ReachesWarmIdle(s: System, a: nat)
    requires Unopposed(s, a)
    ensures Leads(With(s, a, Rest, Outside), With(s, a, WarmIdle, Outside))
  {
    CanAdvance(s, a, Rest, WarmWantsPool);
    CanTake(s, a, WarmWantsPool);
    CanTake(s, a, WarmWantsWarm);
    LeadsFurther(s, a, Rest, WarmWantsPool, WarmWantsWarm);
    LeadsFurther(s, a, Rest, WarmWantsWarm, WarmIdle);
  }

  /** A new preparation, which nothing was ever at the path of. */
  lemma CanBegin(s: System, a: nat, stage: Stage, p: Path, branch: string, env: Env)
    requires Unopposed(s, a) && StageWants(stage).None? && Calls(stage, BeginPreparation(p, branch), s.world)
    requires FreshIds(s.world, env) && p !in s.spent
    ensures var c := BeginPreparation(p, branch);
            Leads(With(s, a, stage, Outside),
                  With(s.(world := Step(s.world, c, env), spent := s.spent + {p}), a, Then(stage, c, env, Apply(s.world.state, c, env)), Outside))
  {
    CanOpen(s, a, stage);
    var c, u := BeginPreparation(p, branch), With(s, a, stage, InState);
    var v := With(s.(world := Step(s.world, c, env), spent := s.spent + {p}), a, Then(stage, c, env, Apply(s.world.state, c, env)), Outside);
    assert u.agents[a := v.agents[a]] == v.agents;
    OneStep(u, Update(a, c, env), v);
    LeadsOn(With(s, a, stage, Outside), u, v);
  }

  function Added(s: System, p: Path): System { s.(worktrees := s.worktrees + {p}, spent := s.spent + {p}) }

  lemma CanAdd(s: System, a: nat, stage: Stage)
    requires Drives(stage, Add) && stage.path !in s.worktrees
    ensures Leads(With(s, a, stage, Outside), With(Added(s, stage.path), a, AfterGit(stage, Add), Outside))
  {
    var t := With(s, a, stage, Outside);
    assert t.agents[a := Agent(AfterGit(stage, Add), Outside)] == s.agents[a := Agent(AfterGit(stage, Add), Outside)];
    OneStep(t, Git(a, Add), With(Added(s, stage.path), a, AfterGit(stage, Add), Outside));
  }

  function Made(s: System, p: Path): System { Added(s, p).(locked := s.locked + {p}) }

  /** The directory is added and put under Git's lock. */
  lemma CanMake(s: System, a: nat, creating: Stage, made: Stage, preparing: Stage)
    requires Drives(creating, Add) && creating.path !in s.worktrees && made == AfterGit(creating, Add)
    requires Drives(made, Lock) && made.path == creating.path && preparing == AfterGit(made, Lock)
    ensures Leads(With(s, a, creating, Outside), With(Made(s, creating.path), a, preparing, Outside))
  {
    var added := Added(s, creating.path);
    CanAdd(s, a, creating);
    CanRunGit(added, a, made, Lock);
    LeadsOn(With(s, a, creating, Outside), With(added, a, made, Outside), With(Made(s, creating.path), a, preparing, Outside));
  }

  // ---------------------------------------------------------------------------------------------
  // Calls that go through
  // ---------------------------------------------------------------------------------------------

  lemma OnlyRequested(ws: map<Path, Workspace>, p: Path)
    requires Wanted(ws, Some(p), p)
    ensures Oldest(ws, Some(p), p) && forall q :: Oldest(ws, Some(p), q) ==> q == p
  {
    if Text.Below(p, p) { Text.BelowIrreflexive(p); }
  }

  lemma ReservationMutates(world: World, p: Path, w': Workspace, input: AssignmentInput, env: Env)
    requires Wanted(world.state.workspaces, Some(p), p) && GoodInput(input)
    requires Edited(world.state.workspaces[p], TakeAvailable(input), env) == Ok(w')
    ensures Mutated(world.state, Reserve(Some(p), input), env) ==
              Ok(State(world.state.trees, world.state.workspaces[p := w'], world.state.metrics))
  {
    OnlyRequested(world.state.workspaces, p);
  }

  lemma ReservationApplies(world: World, p: Path, w': Workspace, input: AssignmentInput, env: Env)
    requires WorldOk(world) && FreshIds(world, env) && p in world.state.workspaces && Eligible(world.state.workspaces[p])
    requires Askable(input, env.now) && Edited(world.state.workspaces[p], TakeAvailable(input), env) == Ok(w')
    ensures Apply(world.state, Reserve(Some(p), input), env) ==
              Ok(State(world.state.trees, world.state.workspaces[p := w'], world.state.metrics))
  {
    ReservationMutates(world, p, w', input, env);
    GuardedCallsEncode(world, Reserve(Some(p), input), env);
  }

  lemma PathCallMutates(world: World, p: Path, e: Edit, w': Workspace, env: Env)
    requires p in world.state.workspaces && PathEdit(e) && Edited(world.state.workspaces[p], e, env) == Ok(w')
    ensures Mutated(world.state, At(p, e), env) == Ok(State(world.state.trees, world.state.workspaces[p := w'], world.state.metrics))
  {
  }

  lemma PathCallFits(world: World, p: Path, e: Edit, env: Env)
    requires p in world.state.workspaces && Proper(world.state.workspaces[p], e) && Fits(world.state.workspaces[p], e, env)
    ensures CallerDataOk(world.state, At(p, e)) && TimesFit(world.state.workspaces, At(p, e), env) && CountersFit(world.state.metrics, At(p, e))
  {
  }

  lemma PathCallApplies(world: World, p: Path, e: Edit, w': Workspace, env: Env)
    requires WorldOk(world) && FreshIds(world, env) && p in world.state.workspaces && PathEdit(e)
    requires Edited(world.state.workspaces[p], e, env) == Ok(w')
    requires Proper(world.state.workspaces[p], e) && Fits(world.state.workspaces[p], e, env)
    ensures Apply(world.state, At(p, e), env) == Ok(State(world.state.trees, world.state.workspaces[p := w'], world.state.metrics))
  {
    PathCallMutates(world, p, e, w', env);
    PathCallFits(world, p, e, env);
    GuardedCallsEncode(world, At(p, e), env);
  }

  lemma PreparationApplies(world: World, p: Path, branch: string, env: Env)
    requires WorldOk(world) && FreshIds(world, env) && p !in world.state.workspaces && branch != "" && ValidTimestamp(env.now)
    ensures Apply(world.state, BeginPreparation(p, branch), env) ==
              Ok(State(world.state.trees, world.state.workspaces[p := Prepared(p, branch, env)], world.state.metrics))
  {
    assert Mutated(world.state, BeginPreparation(p, branch), env) ==
             Ok(State(world.state.trees, world.state.workspaces[p := Prepared(p, branch, env)], world.state.metrics));
    GuardedCallsEncode(world, BeginPreparation(p, branch), env);
  }

  // ---------------------------------------------------------------------------------------------
  // The end of an acquisition
  // ---------------------------------------------------------------------------------------------

  lemma SuccessCall(p: Path, id: Id, o: Id, reused: bool, env: Env, world: World, next: Result<State, Refusal>)
    requires next.Ok?
    ensures Calls(HandingOff(p, id, o), For(id, RecordSuccess(o, reused)), world)
    ensures Then(HandingOff(p, id, o), For(id, RecordSuccess(o, reused)), env, next) == HandedOff(p)
  {
  }

  function Done(w: Workspace, now: int): Workspace { w.(operation := None, updatedAt := now) }

  /** The marker comes off, and the command lets go. */
  lemma HandoverEnds(s: System, a: nat, p: Path, id: Id, o: Id, reused: bool, env: Env) returns (t: System)
    requires Ready(s, a) && p in s.world.state.workspaces && Marked(s.world.state.workspaces[p], o) && s.world.state.workspaces[p].lifecycle.Assigned?
    requires s.world.state.workspaces[p].Carries(id) && RoomToCount(s.world.state.metrics) && FreshIds(s.world, env) && ValidTimestamp(env.now)
    ensures Leads(With(s, a, HandingOff(p, id, o), Outside), t) && a in t.agents && t.agents[a] == Agent(Rest, Outside)
    ensures t.world.state.workspaces == s.world.state.workspaces[p := Done(s.world.state.workspaces[p], env.now)]
    ensures t.worktrees == s.worktrees && t.locked == s.locked
  {
    var c := For(id, RecordSuccess(o, reused));
    var start, u := With(s, a, HandingOff(p, id, o), Outside), After(s, Step(s.world, c, env));
    IdCallApplies(s.world, p, id, c.edit, Done(s.world.state.workspaces[p], env.now), env);
    SuccessCall(p, id, o, reused, env, s.world, Apply(s.world.state, c, env));
    CanUpdate(s, a, HandingOff(p, id, o), c, env);
    CanAdvance(u, a, HandedOff(p), Rest);
    t := With(u, a, Rest, Outside);
    LeadsOn(start, With(u, a, HandedOff(p), Outside), t);
  }

  lemma RetainCall(p: Path, id: Id, o: Id, failure: string, env: Env, world: World, next: Result<State, Refusal>)
    requires next.Ok?
    ensures Calls(HandingOff(p, id, o), For(id, Retain(o, failure, None)), world)
    ensures Then(HandingOff(p, id, o), For(id, Retain(o, failure, None)), env, next) == HandedOff(p)
  {
  }

  function Kept(w: Workspace, failure: string, at: int): Workspace { w.(operation := None, updatedAt := at, failure := Some(failure)) }

  lemma RetainEdits(w: Workspace, o: Id, failure: string, env: Env)
    requires w.lifecycle.Assigned? && w.operation == Some(o) && failure != ""
    ensures Edited(w, Retain(o, failure, None), env) == Ok(Kept(w, failure, NextTimestamp(w.updatedAt, env.now)))
    ensures Proper(w, Retain(o, failure, None))
  {
  }

  /** An acquisition that fails after its workspace was handed out leaves it with its owner, unmarked, with
      the reason, for the owner to release. */
  lemma FailureIsRetained(s: System, a: nat, p: Path, id: Id, o: Id, failure: string, env: Env) returns (t: System)
    requires Ready(s, a) && p in s.world.state.workspaces && s.world.state.workspaces[p].lifecycle.Assigned? && s.world.state.workspaces[p].operation == Some(o)
    requires s.world.state.workspaces[p].Carries(id) && failure != "" && FreshIds(s.world, env) && NextFits(s.world.state.workspaces[p], env)
    ensures Leads(With(s, a, HandingOff(p, id, o), Outside), With(t, a, HandedOff(p), Outside)) && t == After(s, t.world)
    ensures var w := s.world.state.workspaces[p];
            t.world.state.workspaces == s.world.state.workspaces[p := Kept(w, failure, NextTimestamp(w.updatedAt, env.now))]
  {
    var w, c := s.world.state.workspaces[p], For(id, Retain(o, failure, None));
    RetainEdits(w, o, failure, env);
    IdCallApplies(s.world, p, id, c.edit, Kept(w, failure, NextTimestamp(w.updatedAt, env.now)), env);
    RetainCall(p, id, o, failure, env, s.world, Apply(s.world.state, c, env));
    CanUpdate(s, a, HandingOff(p, id, o), c, env);
    t := After(s, Step(s.world, c, env));
  }

  // ---------------------------------------------------------------------------------------------
  // Reuse
  // ---------------------------------------------------------------------------------------------

  lemma ReservationCall(p: Path, input: AssignmentInput, env: Env, world: World, next: Result<State, Refusal>)
    requires next.Ok? && p in next.value.workspaces && next.value.workspaces[p].Carries(env.first)
    ensures Calls(Reserving(p), Reserve(Some(p), input), world)
    ensures Then(Reserving(p), Reserve(Some(p), input), env, next) == Reserved(p, env.first, env.second)
  {
  }

  lemma ReservationStands(s: System, a: nat, p: Path, w': Workspace, input: AssignmentInput, env: Env) returns (t: System)
    requires Ready(s, a) && p in s.world.state.workspaces && Eligible(s.world.state.workspaces[p]) && Askable(input, env.now) && FreshIds(s.world, env)
    requires Edited(s.world.state.workspaces[p], TakeAvailable(input), env) == Ok(w') && w'.Carries(env.first)
    ensures Ready(t, a) && Leads(With(s, a, Reserving(p), Outside), With(t, a, HandingOff(p, env.first, env.second), Outside))
    ensures t.world.state == s.world.state.(workspaces := s.world.state.workspaces[p := w'])
    ensures t.worktrees == s.worktrees && t.locked == s.locked && t.world.used == s.world.used + {env.first, env.second}
  {
    var c, id, o := Reserve(Some(p), input), env.first, env.second;
    ReservationApplies(s.world, p, w', input, env);
    ReservationCall(p, input, env, s.world, Apply(s.world.state, c, env));
    CanUpdate(s, a, Reserving(p), c, env);
    StepKeepsWorldOk(s.world, c, env);
    t := After(s, Step(s.world, c, env));
    CanAdvance(t, a, Reserved(p, id, o), HandingOff(p, id, o));
    LeadsOn(With(s, a, Reserving(p), Outside), With(t, a, Reserved(p, id, o), Outside), With(t, a, HandingOff(p, id, o), Outside));
  }

  predicate HeldFor(w: Workspace, input: AssignmentInput, env: Env) {
    && w.lifecycle.Assigned? && w.operation == Some(env.second) && w.assignment.Some? && w.assignment.value.id == env.first
    && w.assignment.value.owner == input.owner && w.assignment.value.hostname == input.hostname
  }

  lemma TakenIsHeld(w: Workspace, input: AssignmentInput, env: Env) returns (taken: Workspace)
    requires Eligible(w) && Askable(input, env.now)
    ensures Edited(w, TakeAvailable(input), env) == Ok(taken) && HeldFor(taken, input, env)
  {
    taken := Edited(w, TakeAvailable(input), env).value;
    Effects.HandingOutWritesTheInput(w, TakeAvailable(input), env);
  }

  lemma ReservedFromRest(s: System, a: nat, p: Path, input: AssignmentInput, env: Env) returns (t: System, taken: Workspace)
    requires a !in s.agents && Ready(s, a) && p in s.world.state.workspaces && Eligible(s.world.state.workspaces[p])
    requires Askable(input, env.now) && FreshIds(s.world, env)
    ensures Ready(t, a) && Leads(s, With(t, a, HandingOff(p, env.first, env.second), Outside)) && HeldFor(taken, input, env)
    ensures t.world.state == s.world.state.(workspaces := s.world.state.workspaces[p := taken])
    ensures t.worktrees == s.worktrees && t.locked == s.locked
  {
    var rest := With(s, a, Rest, Outside);
    OneStep(s, Enter(a), rest);
    ReachesReserving(s, a, p);
    LeadsOn(s, rest, With(s, a, Reserving(p), Outside));
    taken := TakenIsHeld(s.world.state.workspaces[p], input, env);
    t := ReservationStands(s, a, p, taken, input, env);
    LeadsOn(s, With(s, a, Reserving(p), Outside), With(t, a, HandingOff(p, env.first, env.second), Outside));
  }

  /** The end of every acquisition, however the workspace was come by. */
  lemma HeldIsHandedOut(s: System, from: System, a: nat, p: Path, w: Workspace, input: AssignmentInput, env: Env, reused: bool) returns (t: System)
    requires Ready(from, a) && p in from.world.state.workspaces && w == from.world.state.workspaces[p] && HeldFor(w, input, env)
    requires Leads(s, With(from, a, HandingOff(p, env.first, env.second), Outside)) && env.first !in s.world.used
    requires from.world.state.workspaces == s.world.state.workspaces[p := w]
    requires RoomToCount(from.world.state.metrics) && ValidTimestamp(env.now)
    ensures Leads(s, t) && Settled(s, t, a, p) && HandedOut(s, t, p, input)
    ensures t.worktrees == from.worktrees && t.locked == from.locked
  {
    var later := FreshEnv(from.world, env.now);
    t := HandoverEnds(from, a, p, env.first, env.second, reused, later);
    LeadsOn(s, With(from, a, HandingOff(p, env.first, env.second), Outside), t);
  }

  /** When no command holds a lock, a command can acquire any spare workspace all the way: it ends assigned
      to whom it was asked for, under an identifier nobody used, its acquisition finished, and nothing else
      changed. */
  lemma SpareIsHandedOut(s: System, a: nat, p: Path, input: AssignmentInput, now: int) returns (t: System)
    requires a !in s.agents && Ready(s, a) && p in s.world.state.workspaces && Eligible(s.world.state.workspaces[p])
    requires Askable(input, now) && RoomToCount(s.world.state.metrics)
    ensures Leads(s, t) && Settled(s, t, a, p) && HandedOut(s, t, p, input)
    ensures t.worktrees == s.worktrees && t.locked == s.locked
  {
    var env := FreshEnv(s.world, now);
    var u, taken := ReservedFromRest(s, a, p, input, env);
    t := HeldIsHandedOut(s, u, a, p, taken, input, env, true);
  }

  // ---------------------------------------------------------------------------------------------
  // A new workspace
  // ---------------------------------------------------------------------------------------------

  /** The path drawn for a new workspace never was a worktree and never had a record. */
  ghost predicate Untouched(s: System, p: Path) { p !in s.spent && p !in s.worktrees && p !in s.world.state.workspaces }

  /** The preparation has begun and its directory is in place under Git's lock. */
  ghost predicate Begun(s: System, t: System, a: nat, p: Path, branch: string, env: Env) {
    && Ready(t, a) && t.world.state == s.world.state.(workspaces := s.world.state.workspaces[p := Prepared(p, branch, env)])
    && t.world.used == s.world.used + {env.first, env.second} && t.worktrees == s.worktrees + {p} && t.locked == s.locked + {p}
  }

  lemma BegunStands(s: System, t: System, a: nat, p: Path, branch: string, env: Env)
    requires Ready(s, a) && Untouched(s, p) && branch != "" && ValidTimestamp(env.now) && FreshIds(s.world, env)
    requires t == Made(s.(world := Step(s.world, BeginPreparation(p, branch), env), spent := s.spent + {p}), p)
    ensures Begun(s, t, a, p, branch, env)
  {
    PreparationApplies(s.world, p, branch, env);
    StepKeepsWorldOk(s.world, BeginPreparation(p, branch), env);
  }

  /** Where a command stands once its preparation has begun, and what it does with the directory. */
  predicate Making(creating: Stage, made: Stage, preparing: Stage, p: Path) {
    && Drives(creating, Add) && creating.path == p && made == AfterGit(creating, Add)
    && Drives(made, Lock) && made.path == p && preparing == AfterGit(made, Lock)
  }

  /** From the preparation's first write to its directory, for an acquisition or for a spare workspace. */
  lemma PreparationIsMade(s: System, a: nat, stage: Stage, creating: Stage, made: Stage, preparing: Stage, p: Path, branch: string, env: Env) returns (t: System)
    requires Ready(s, a) && Untouched(s, p) && branch != "" && ValidTimestamp(env.now) && FreshIds(s.world, env)
    requires StageWants(stage).None? && Calls(stage, BeginPreparation(p, branch), s.world) && Making(creating, made, preparing, p)
    requires Then(stage, BeginPreparation(p, branch), env, Apply(s.world.state, BeginPreparation(p, branch), env)) == creating
    ensures Begun(s, t, a, p, branch, env) && Leads(With(s, a, stage, Outside), With(t, a, preparing, Outside))
  {
    var begun := s.(world := Step(s.world, BeginPreparation(p, branch), env), spent := s.spent + {p});
    t := Made(begun, p);
    BegunStands(s, t, a, p, branch, env);
    CanBegin(s, a, stage, p, branch, env);
    CanMake(begun, a, creating, made, preparing);
    LeadsOn(With(s, a, stage, Outside), With(begun, a, creating, Outside), With(t, a, preparing, Outside));
  }

  lemma FreshCall(p: Path, branch: string, env: Env, world: World, next: Result<State, Refusal>)
    requires next.Ok?
    ensures Calls(Beginning(p), BeginPreparation(p, branch), world)
    ensures Then(Beginning(p), BeginPreparation(p, branch), env, next) == CreatingFresh(p, env.first)
  {
  }

  lemma FreshMaking(p: Path, o: Id)
    ensures Making(CreatingFresh(p, o), MadeFresh(p, o), PreparingFresh(p, o), p)
  {
  }

  lemma FreshIsMade(s: System, a: nat, p: Path, branch: string, env: Env) returns (t: System)
    requires Ready(s, a) && Untouched(s, p) && branch != "" && ValidTimestamp(env.now) && FreshIds(s.world, env)
    ensures Begun(s, t, a, p, branch, env) && Leads(With(s, a, Beginning(p), Outside), With(t, a, PreparingFresh(p, env.first), Outside))
  {
    PreparationApplies(s.world, p, branch, env);
    FreshCall(p, branch, env, s.world, Apply(s.world.state, BeginPreparation(p, branch), env));
    FreshMaking(p, env.first);
    t := PreparationIsMade(s, a, Beginning(p), CreatingFresh(p, env.first), MadeFresh(p, env.first), PreparingFresh(p, env.first), p, branch, env);
  }

  lemma PublicationCall(p: Path, o: Id, input: AssignmentInput, env: Env, world: World, next: Result<State, Refusal>)
    requires next.Ok?
    ensures Calls(PreparingFresh(p, o), At(p, MarkAssigned(o, input)), world)
    ensures Then(PreparingFresh(p, o), At(p, MarkAssigned(o, input)), env, next) == HandingOff(p, env.first, env.second)
  {
  }

  /** A preparation that fails before its directory is made, while it is made, or after. */
  predicate AtFresh(stage: Stage, p: Path, o: Id) { stage == CreatingFresh(p, o) || stage == MadeFresh(p, o) || stage == PreparingFresh(p, o) }

  lemma FailureCall(stage: Stage, p: Path, o: Id, failure: string, env: Env, world: World, next: Result<State, Refusal>)
    requires AtFresh(stage, p, o) && next.Ok?
    ensures StageWants(stage).None? && Calls(stage, At(p, FinishPreparation(o, Some(failure), None)), world)
    ensures Then(stage, At(p, FinishPreparation(o, Some(failure), None)), env, next) == HandedOff(p)
  {
  }

  function Broken(w: Workspace, failure: string, at: int): Workspace {
    w.(operation := None, updatedAt := at, lifecycle := Failed, failure := Some(failure))
  }

  lemma FailureEdits(w: Workspace, o: Id, failure: string, env: Env)
    requires PreparingWith(w, o) && failure != "" && NextFits(w, env)
    ensures var e := FinishPreparation(o, Some(failure), None);
            && Edited(w, e, env) == Ok(Broken(w, failure, NextTimestamp(w.updatedAt, env.now)))
            && Proper(w, e) && Fits(w, e, env) && PathEdit(e)
  {
  }

  /** A preparation that fails anywhere is recorded as a failure with its reason, for collection to take. */
  lemma FailedPreparationIsKept(s: System, a: nat, stage: Stage, p: Path, o: Id, failure: string, env: Env) returns (t: System)
    requires Ready(s, a) && AtFresh(stage, p, o) && p in s.world.state.workspaces && PreparingWith(s.world.state.workspaces[p], o)
    requires failure != "" && FreshIds(s.world, env) && NextFits(s.world.state.workspaces[p], env)
    ensures Leads(With(s, a, stage, Outside), With(t, a, HandedOff(p), Outside)) && t == After(s, t.world)
    ensures var w := s.world.state.workspaces[p];
            t.world.state == s.world.state.(workspaces := s.world.state.workspaces[p := Broken(w, failure, NextTimestamp(w.updatedAt, env.now))])
  {
    var w, c := s.world.state.workspaces[p], At(p, FinishPreparation(o, Some(failure), None));
    FailureEdits(w, o, failure, env);
    PathCallApplies(s.world, p, c.edit, Broken(w, failure, NextTimestamp(w.updatedAt, env.now)), env);
    FailureCall(stage, p, o, failure, env, s.world, Apply(s.world.state, c, env));
    CanUpdate(s, a, stage, c, env);
    t := After(s, Step(s.world, c, env));
  }

  lemma PreparedIsHeld(w: Workspace, o: Id, input: AssignmentInput, env: Env) returns (taken: Workspace)
    requires w.lifecycle.Preparing? && w.operation == Some(o) && Askable(input, env.now)
    ensures Edited(w, MarkAssigned(o, input), env) == Ok(taken) && HeldFor(taken, input, env)
  {
    taken := Edited(w, MarkAssigned(o, input), env).value;
    Effects.HandingOutWritesTheInput(w, MarkAssigned(o, input), env);
  }

  lemma PreparedIsPublished(s: System, a: nat, p: Path, o: Id, input: AssignmentInput, env: Env) returns (t: System, taken: Workspace)
    requires Ready(s, a) && p in s.world.state.workspaces && PreparingWith(s.world.state.workspaces[p], o)
    requires Askable(input, env.now) && FreshIds(s.world, env)
    ensures Ready(t, a) && Leads(With(s, a, PreparingFresh(p, o), Outside), With(t, a, HandingOff(p, env.first, env.second), Outside))
    ensures HeldFor(taken, input, env) && t.world.state == s.world.state.(workspaces := s.world.state.workspaces[p := taken])
    ensures t.worktrees == s.worktrees && t.locked == s.locked
  {
    var c := At(p, MarkAssigned(o, input));
    taken := PreparedIsHeld(s.world.state.workspaces[p], o, input, env);
    PathCallApplies(s.world, p, c.edit, taken, env);
    PublicationCall(p, o, input, env, s.world, Apply(s.world.state, c, env));
    CanUpdate(s, a, PreparingFresh(p, o), c, env);
    StepKeepsWorldOk(s.world, c, env);
    t := After(s, Step(s.world, c, env));
  }

  lemma FreshFromRest(s: System, a: nat, p: Path, branch: string, env: Env) returns (t: System)
    requires a !in s.agents && Ready(s, a) && Untouched(s, p) && branch != "" && ValidTimestamp(env.now) && FreshIds(s.world, env)
    ensures Begun(s, t, a, p, branch, env) && Leads(s, With(t, a, PreparingFresh(p, env.first), Outside))
  {
    var rest := With(s, a, Rest, Outside);
    OneStep(s, Enter(a), rest);
    ReachesBeginning(s, a, p);
    LeadsOn(s, rest, With(s, a, Beginning(p), Outside));
    t := FreshIsMade(s, a, p, branch, env);
    LeadsOn(s, With(s, a, Beginning(p), Outside), With(t, a, PreparingFresh(p, env.first), Outside));
  }

  lemma PublishedFromRest(s: System, begun: System, a: nat, p: Path, branch: string, input: AssignmentInput, env: Env, later: Env) returns (t: System, taken: Workspace)
    requires Begun(s, begun, a, p, branch, env) && Leads(s, With(begun, a, PreparingFresh(p, env.first), Outside))
    requires Askable(input, later.now) && FreshIds(begun.world, later)
    ensures Ready(t, a) && Leads(s, With(t, a, HandingOff(p, later.first, later.second), Outside)) && HeldFor(taken, input, later)
    ensures t.world.state == s.world.state.(workspaces := s.world.state.workspaces[p := taken])
    ensures t.worktrees == s.worktrees + {p} && t.locked == s.locked + {p} && later.first !in s.world.used
  {
    t, taken := PreparedIsPublished(begun, a, p, env.first, input, later);
    LeadsOn(s, With(begun, a, PreparingFresh(p, env.first), Outside), With(t, a, HandingOff(p, later.first, later.second), Outside));
  }

  /** Nor does an acquisition have to find a spare one: it can make a workspace where none ever was, its
      directory in place under Git's lock, and finish in the same way. */
  lemma NewIsHandedOut(s: System, a: nat, p: Path, branch: string, input: AssignmentInput, now: int) returns (t: System)
    requires a !in s.agents && Ready(s, a) && Untouched(s, p) && branch != ""
    requires Askable(input, now) && RoomToCount(s.world.state.metrics)
    ensures Leads(s, t) && Settled(s, t, a, p) && HandedOut(s, t, p, input)
    ensures t.worktrees == s.worktrees + {p} && t.locked == s.locked + {p}
  {
    var env := FreshEnv(s.world, now);
    var begun := FreshFromRest(s, a, p, branch, env);
    var later := FreshEnv(begun.world, now);
    var u, taken := PublishedFromRest(s, begun, a, p, branch, input, env, later);
    t := HeldIsHandedOut(s, u, a, p, taken, input, later, false);
  }

  // ---------------------------------------------------------------------------------------------
  // A spare workspace
  // ---------------------------------------------------------------------------------------------

  lemma WarmCall(p: Path, branch: string, env: Env, world: World, next: Result<State, Refusal>)
    requires next.Ok?
    ensures Calls(WarmIdle, BeginPreparation(p, branch), world)
    ensures Then(WarmIdle, BeginPreparation(p, branch), env, next) == WarmCreating(p, env.first)
  {
  }

  lemma WarmMaking(p: Path, o: Id)
    ensures Making(WarmCreating(p, o), WarmMade(p, o), WarmPreparing(p, o), p)
  {
  }

  lemma WarmIsMade(s: System, a: nat, p: Path, branch: string, env: Env) returns (t: System)
    requires Ready(s, a) && Untouched(s, p) && branch != "" && ValidTimestamp(env.now) && FreshIds(s.world, env)
    ensures Begun(s, t, a, p, branch, env) && Leads(With(s, a, WarmIdle, Outside), With(t, a, WarmPreparing(p, env.first), Outside))
  {
    PreparationApplies(s.world, p, branch, env);
    WarmCall(p, branch, env, s.world, Apply(s.world.state, BeginPreparation(p, branch), env));
    WarmMaking(p, env.first);
    t := PreparationIsMade(s, a, WarmIdle, WarmCreating(p, env.first), WarmMade(p, env.first), WarmPreparing(p, env.first), p, branch, env);
  }

  lemma FinishingCall(p: Path, o: Id, env: Env, world: World, next: Result<State, Refusal>)
    requires next.Ok?
    ensures Calls(WarmPreparing(p, o), At(p, FinishPreparation(o, None, None)), world)
    ensures Then(WarmPreparing(p, o), At(p, FinishPreparation(o, None, None)), env, next) == WarmIdle
  {
  }

  function Readied(w: Workspace, at: int): Workspace { w.(operation := None, updatedAt := at, lifecycle := Available, availableAt := Some(at)) }

  lemma PreparedBecomesSpare(s: System, a: nat, p: Path, o: Id, env: Env) returns (t: System)
    requires Ready(s, a) && p in s.world.state.workspaces && PreparingWith(s.world.state.workspaces[p], o) && FreshIds(s.world, env)
    requires s.world.state.workspaces[p].processes == [] && NextFits(s.world.state.workspaces[p], env)
    ensures Leads(With(s, a, WarmPreparing(p, o), Outside), t) && a in t.agents && t.agents[a] == Agent(Rest, Outside)
    ensures var w := s.world.state.workspaces[p];
            t.world.state == s.world.state.(workspaces := s.world.state.workspaces[p := Readied(w, NextTimestamp(w.updatedAt, env.now))])
    ensures t.worktrees == s.worktrees && t.locked == s.locked
  {
    var w, c := s.world.state.workspaces[p], At(p, FinishPreparation(o, None, None));
    var u := After(s, Step(s.world, c, env));
    PathCallApplies(s.world, p, c.edit, Readied(w, NextTimestamp(w.updatedAt, env.now)), env);
    FinishingCall(p, o, env, s.world, Apply(s.world.state, c, env));
    CanUpdate(s, a, WarmPreparing(p, o), c, env);
    CanAdvance(u, a, WarmIdle, Rest);
    t := With(u, a, Rest, Outside);
    LeadsOn(With(s, a, WarmPreparing(p, o), Outside), With(u, a, WarmIdle, Outside), t);
  }

  lemma WarmFromRest(s: System, a: nat, p: Path, branch: string, env: Env) returns (t: System)
    requires a !in s.agents && Ready(s, a) && Untouched(s, p) && branch != "" && ValidTimestamp(env.now) && FreshIds(s.world, env)
    ensures Begun(s, t, a, p, branch, env) && Leads(s, With(t, a, WarmPreparing(p, env.first), Outside))
  {
    var rest := With(s, a, Rest, Outside);
    OneStep(s, Enter(a), rest);
    ReachesWarmIdle(s, a);
    LeadsOn(s, rest, With(s, a, WarmIdle, Outside));
    t := WarmIsMade(s, a, p, branch, env);
    LeadsOn(s, With(s, a, WarmIdle, Outside), With(t, a, WarmPreparing(p, env.first), Outside));
  }

  lemma WarmEnds(s: System, begun: System, a: nat, p: Path, branch: string, env: Env, later: Env) returns (t: System)
    requires Begun(s, begun, a, p, branch, env) && Leads(s, With(begun, a, WarmPreparing(p, env.first), Outside))
    requires FreshIds(begun.world, later) && later.now == env.now && ValidTimestamp(env.now + 1)
    ensures Leads(s, t) && Settled(s, t, a, p) && Eligible(t.world.state.workspaces[p]) && t.world.state.workspaces[p].branch == branch
    ensures t.worktrees == s.worktrees + {p} && t.locked == s.locked + {p}
  {
    t := PreparedBecomesSpare(begun, a, p, env.first, later);
    LeadsOn(s, With(begun, a, WarmPreparing(p, env.first), Outside), t);
  }

  /** And a warming command can add a spare workspace to the pool, which an acquisition can then take. */
  lemma SpareIsMade(s: System, a: nat, p: Path, branch: string, now: int) returns (t: System)
    requires a !in s.agents && Ready(s, a) && Untouched(s, p) && branch != "" && ValidTimestamp(now) && ValidTimestamp(now + 1)
    ensures Leads(s, t) && Settled(s, t, a, p) && Eligible(t.world.state.workspaces[p]) && t.world.state.workspaces[p].branch == branch
    ensures t.worktrees == s.worktrees + {p} && t.locked == s.locked + {p}
  {
    var env := FreshEnv(s.world, now);
    var begun := WarmFromRest(s, a, p, branch, env);
    var later := FreshEnv(begun.world, now);
    t := WarmEnds(s, begun, a, p, branch, env, later);
  }

  // ---------------------------------------------------------------------------------------------
  // A release
  // ---------------------------------------------------------------------------------------------

  lemma ReleaseCall(p: Path, id: Id, e: Edit, env: Env, world: World, next: Result<State, Refusal>)
    requires e.BeginReturn? && next.Ok? && p in next.value.workspaces
    ensures Calls(ReturnReady(p, id), For(id, e), world)
    ensures Then(ReturnReady(p, id), For(id, e), env, next) == Draining(None, p, id, next.value.workspaces[p].processes, 0, {})
  {
  }

  lemma ReachesReturnReady(s: System, a: nat, p: Path, id: Id)
    requires Unopposed(s, a) && CarriedAt(s.world, p, id)
    ensures Leads(With(s, a, Rest, Outside), With(s, a, ReturnReady(p, id), Outside))
  {
    CanAdvance(s, a, Rest, ReturnWants(p, id));
    CanTake(s, a, ReturnWants(p, id));
    LeadsFurther(s, a, Rest, ReturnWants(p, id), ReturnReady(p, id));
  }

  lemma ReleaseStarts(s: System, a: nat, p: Path, id: Id, env: Env) returns (t: System, drain: Stage)
    requires Ready(s, a) && CarriedAt(s.world, p, id) && s.world.state.workspaces[p].lifecycle.Assigned? && s.world.state.workspaces[p].operation == None
    requires FreshIds(s.world, env) && ValidTimestamp(env.now)
    ensures Ready(t, a) && DrainsHere(t, drain) && drain.path == p && drain.id == id && drain.sweep == None
    ensures Leads(With(s, a, ReturnReady(p, id), Outside), With(t, a, drain, Outside))
    ensures t.world.state.workspaces == s.world.state.workspaces[p := t.world.state.workspaces[p]]
    ensures t.worktrees == s.worktrees && t.locked == s.locked
  {
    var w, c := s.world.state.workspaces[p], For(id, BeginReturn(None, None, None));
    IdCallApplies(s.world, p, id, c.edit, Fenced(w, env.now), env);
    ReleaseCall(p, id, c.edit, env, s.world, Apply(s.world.state, c, env));
    CanUpdate(s, a, ReturnReady(p, id), c, env);
    StepKeepsWorldOk(s.world, c, env);
    t := After(s, Step(s.world, c, env));
    drain := Draining(None, p, id, t.world.state.workspaces[p].processes, 0, {});
  }

  lemma EndCall(stage: Stage, env: Env, world: World, next: Result<State, Refusal>)
    requires stage.Draining? && stage.sweep == None && stage.done == |stage.tracked| && next.Ok?
    ensures Calls(stage, For(stage.id, FinishReturn), world) && Then(stage, For(stage.id, FinishReturn), env, next) == Returned(stage.path)
  {
  }

  lemma FinishEdits(w: Workspace, env: Env)
    requires w.lifecycle.Returning? && w.processes == [] && ValidTimestamp(env.now)
    ensures Edited(w, FinishReturn, env) == Ok(Spare(w, env.now)) && Proper(w, FinishReturn) && Fits(w, FinishReturn, env)
  {
  }

  lemma ReturnIsFinished(s: System, a: nat, stage: Stage, env: Env) returns (t: System)
    requires Ready(s, a) && DrainsHere(s, stage) && stage.sweep == None && stage.done == |stage.tracked| && FreshIds(s.world, env) && ValidTimestamp(env.now)
    ensures Leads(With(s, a, stage, Outside), With(t, a, Returned(stage.path), Outside)) && t == After(s, t.world)
    ensures t.world.state.workspaces == s.world.state.workspaces[stage.path := Spare(s.world.state.workspaces[stage.path], env.now)]
  {
    var w, c := s.world.state.workspaces[stage.path], For(stage.id, FinishReturn);
    FinishEdits(w, env);
    IdCallApplies(s.world, stage.path, stage.id, FinishReturn, Spare(w, env.now), env);
    EndCall(stage, env, s.world, Apply(s.world.state, c, env));
    CanUpdate(s, a, stage, c, env);
    t := After(s, Step(s.world, c, env));
  }

  lemma ReleaseEnds(s: System, a: nat, stage: Stage, env: Env) returns (t: System)
    requires Ready(s, a) && DrainsHere(s, stage) && stage.sweep == None && stage.done == |stage.tracked| && FreshIds(s.world, env) && ValidTimestamp(env.now)
    ensures Leads(With(s, a, stage, Outside), t) && a in t.agents && t.agents[a] == Agent(Rest, Outside)
    ensures t.world.state.workspaces == s.world.state.workspaces[stage.path := Spare(s.world.state.workspaces[stage.path], env.now)]
    ensures t.worktrees == s.worktrees && t.locked == s.locked
  {
    var u := ReturnIsFinished(s, a, stage, env);
    CanAdvance(u, a, Returned(stage.path), Rest);
    t := With(u, a, Rest, Outside);
    LeadsOn(With(s, a, stage, Outside), With(u, a, Returned(stage.path), Outside), t);
  }

  lemma GiveUpCall(stage: Stage, failure: string, env: Env, world: World, next: Result<State, Refusal>)
    requires stage.Draining? && stage.sweep == None && next.Ok?
    ensures Calls(stage, For(stage.id, CancelReturn(failure)), world)
    ensures Then(stage, For(stage.id, CancelReturn(failure)), env, next) == Returned(stage.path)
  {
  }

  function GivenBack(w: Workspace, failure: string, now: int): Workspace {
    w.(lifecycle := Assigned, updatedAt := now, availableAt := None, failure := Some(failure))
  }

  lemma GivingBackEdits(w: Workspace, failure: string, env: Env)
    requires w.lifecycle.Returning? && failure != "" && ValidTimestamp(env.now)
    ensures Edited(w, CancelReturn(failure), env) == Ok(GivenBack(w, failure, env.now))
    ensures Proper(w, CancelReturn(failure)) && Fits(w, CancelReturn(failure), env)
  {
  }

  /** A release can be given up wherever its drain stands: the assignment, its marker and what is still
      tracked go back to the owner, with the reason. */
  lemma ReleaseIsGivenUp(s: System, a: nat, stage: Stage, failure: string, env: Env) returns (t: System)
    requires Ready(s, a) && DrainsHere(s, stage) && stage.sweep == None && failure != "" && FreshIds(s.world, env) && ValidTimestamp(env.now)
    ensures Leads(With(s, a, stage, Outside), With(t, a, Returned(stage.path), Outside)) && t == After(s, t.world)
    ensures t.world.state.workspaces == s.world.state.workspaces[stage.path := GivenBack(s.world.state.workspaces[stage.path], failure, env.now)]
  {
    var w, c := s.world.state.workspaces[stage.path], For(stage.id, CancelReturn(failure));
    GivingBackEdits(w, failure, env);
    IdCallApplies(s.world, stage.path, stage.id, c.edit, GivenBack(w, failure, env.now), env);
    GiveUpCall(stage, failure, env, s.world, Apply(s.world.state, c, env));
    CanUpdate(s, a, stage, c, env);
    t := After(s, Step(s.world, c, env));
  }

  lemma SettledLater(s: System, t: System, u: System, a: nat, p: Path)
    requires OnlyRecordMoved(s, t, p) && Settled(t, u, a, p) && u.worktrees == t.worktrees && u.locked == t.locked
    ensures Settled(s, u, a, p) && u.worktrees == s.worktrees && u.locked == s.locked
  {
  }

  /** Each process in turn is seen gone and untracked, and then the workspace is spare again. */
  lemma {:induction false} DrainEnds(s: System, a: nat, stage: Stage, now: int) returns (t: System)
    requires Ready(s, a) && DrainsHere(s, stage) && stage.sweep == None && ValidTimestamp(now)
    ensures Leads(With(s, a, stage, Outside), t) && Settled(s, t, a, stage.path)
    ensures Eligible(t.world.state.workspaces[stage.path]) && t.world.state.workspaces[stage.path].assignment == None
    ensures t.worktrees == s.worktrees && t.locked == s.locked
    decreases |stage.tracked| - stage.done
  {
    var env := FreshEnv(s.world, now);
    if stage.done == |stage.tracked| {
      t := ReleaseEnds(s, a, stage, env);
    } else {
      var u, after := OneDrains(s, a, stage, env);
      t := DrainEnds(u, a, after, now);
      SettledLater(s, u, t, a, stage.path);
      LeadsOn(With(s, a, stage, Outside), With(u, a, after, Outside), t);
    }
  }

  lemma ReleaseFromRest(s: System, a: nat, p: Path, id: Id, env: Env) returns (t: System, drain: Stage)
    requires a !in s.agents && Ready(s, a) && CarriedAt(s.world, p, id)
    requires s.world.state.workspaces[p].lifecycle.Assigned? && s.world.state.workspaces[p].operation == None
    requires FreshIds(s.world, env) && ValidTimestamp(env.now)
    ensures Ready(t, a) && DrainsHere(t, drain) && drain.path == p && drain.sweep == None && Leads(s, With(t, a, drain, Outside))
    ensures OnlyRecordMoved(s, t, p)
  {
    var rest := With(s, a, Rest, Outside);
    OneStep(s, Enter(a), rest);
    ReachesReturnReady(s, a, p, id);
    LeadsOn(s, rest, With(s, a, ReturnReady(p, id), Outside));
    t, drain := ReleaseStarts(s, a, p, id, env);
    LeadsOn(s, With(s, a, ReturnReady(p, id), Outside), With(t, a, drain, Outside));
  }

  /** An assignment whose acquisition is finished can be released all the way: fenced, drained of whatever
      it tracks, and spare again, for the next acquisition to take. */
  lemma AssignmentIsReleased(s: System, a: nat, p: Path, id: Id, now: int) returns (t: System)
    requires a !in s.agents && Ready(s, a) && CarriedAt(s.world, p, id) && ValidTimestamp(now)
    requires s.world.state.workspaces[p].lifecycle.Assigned? && s.world.state.workspaces[p].operation == None
    ensures Leads(s, t) && Settled(s, t, a, p)
    ensures Eligible(t.world.state.workspaces[p]) && t.world.state.workspaces[p].assignment == None
    ensures t.worktrees == s.worktrees && t.locked == s.locked
  {
    var env := FreshEnv(s.world, now);
    var u, drain := ReleaseFromRest(s, a, p, id, env);
    t := DrainEnds(u, a, drain, now);
    SettledLater(s, u, t, a, p);
    LeadsOn(s, With(u, a, drain, Outside), t);
  }

  // ---------------------------------------------------------------------------------------------
  // The other ways on
  // ---------------------------------------------------------------------------------------------

  /** A reservation lost to somebody else can be tried again with the next choice. */
  lemma LostIsTriedAgain(s: System, a: nat)
    requires Unopposed(s, a)
    ensures Leads(With(s, a, LostReservation, Outside), With(s, a, Selecting, Outside))
  {
    CanAdvance(s, a, LostReservation, WantsPool);
    CanTake(s, a, WantsPool);
    LeadsFurther(s, a, LostReservation, WantsPool, Selecting);
  }

  /** A preparation in the pool can get its workspace's lock to install under, and goes on from there. */
  lemma PreparationInstalls(s: System, a: nat, p: Path, o: Id)
    requires Unopposed(s, a)
    ensures Leads(With(s, a, WarmPreparing(p, o), Outside), With(s, a, WarmInstalling(p, o), Outside))
    ensures Leads(With(s, a, WarmInstalling(p, o), Outside), With(s, a, WarmPreparing(p, o), Outside))
  {
    CanAdvance(s, a, WarmPreparing(p, o), WarmWantsHandover(p, o));
    CanTake(s, a, WarmWantsHandover(p, o));
    LeadsFurther(s, a, WarmPreparing(p, o), WarmWantsHandover(p, o), WarmInstalling(p, o));
    CanAdvance(s, a, WarmInstalling(p, o), WarmPreparing(p, o));
  }

  lemma ReachesCreating(s: System, a: nat, p: Path)
    requires Unopposed(s, a)
    ensures Leads(With(s, a, Rest, Outside), With(s, a, Creating(p), Outside))
  {
    CanAdvance(s, a, Rest, CreateWants(p));
    CanTake(s, a, CreateWants(p));
    LeadsFurther(s, a, Rest, CreateWants(p), Creating(p));
  }

  lemma CreatingAdds(s: System, a: nat, p: Path)
    requires p !in s.worktrees
    ensures Leads(With(s, a, Creating(p), Outside), With(Added(s, p), a, Created(p), Outside))
  {
    CanAdd(s, a, Creating(p));
  }

  lemma CreatingEnds(s: System, a: nat, p: Path, t: System)
    requires p !in s.worktrees && t == With(Added(s, p), a, Rest, Outside)
    ensures Leads(With(s, a, Creating(p), Outside), t)
  {
    CreatingAdds(s, a, p);
    CanAdvance(Added(s, p), a, Created(p), Rest);
    LeadsOn(With(s, a, Creating(p), Outside), With(Added(s, p), a, Created(p), Outside), t);
  }

  /** A worktree of the user's own can be created where there is none. */
  lemma WorktreeIsCreated(s: System, a: nat, p: Path) returns (t: System)
    requires a !in s.agents && Unopposed(s, a) && p !in s.worktrees
    ensures Leads(s, t) && a in t.agents && t.agents[a] == Agent(Rest, Outside)
    ensures t.worktrees == s.worktrees + {p} && t.locked == s.locked && t.world == s.world
  {
    var rest := With(s, a, Rest, Outside);
    t := With(Added(s, p), a, Rest, Outside);
    OneStep(s, Enter(a), rest);
    ReachesCreating(s, a, p);
    LeadsOn(s, rest, With(s, a, Creating(p), Outside));
    CreatingEnds(s, a, p, t);
    LeadsOn(s, With(s, a, Creating(p), Outside), t);
  }

  lemma RemovalAdvances(s: System, p: Path)
    requires p in s.worktrees && p !in s.world.state.workspaces
    ensures Advances(s, Rest, RemoveLooks(p)) && Advances(s, RemoveLooks(p), RemoveWants(p))
  {
  }

  lemma RemovalLooks(s: System, a: nat, p: Path)
    requires Advances(s, Rest, RemoveLooks(p)) && Advances(s, RemoveLooks(p), RemoveWants(p))
    ensures Leads(With(s, a, Rest, Outside), With(s, a, RemoveWants(p), Outside))
  {
    CanAdvance(s, a, Rest, RemoveLooks(p));
    CanAdvance(s, a, RemoveLooks(p), RemoveWants(p));
    LeadsFurther(s, a, Rest, RemoveLooks(p), RemoveWants(p));
  }

  lemma ReachesRemoving(s: System, a: nat, p: Path)
    requires Unopposed(s, a) && p in s.worktrees && p !in s.world.state.workspaces
    ensures Leads(With(s, a, Rest, Outside), With(s, a, Removing(p), Outside))
  {
    RemovalAdvances(s, p);
    RemovalLooks(s, a, p);
    CanTake(s, a, RemoveWants(p));
    LeadsFurther(s, a, Rest, RemoveWants(p), Removing(p));
  }

  lemma ForgettingCall(p: Path, env: Env, world: World, next: Result<State, Refusal>)
    ensures Calls(Forgetting(p), DropTree(p), world) && Then(Forgetting(p), DropTree(p), env, next) == Rest
  {
  }

  lemma ForgettingEnds(s: System, a: nat, p: Path, env: Env) returns (t: System)
    requires Ready(s, a) && p !in s.worktrees && p !in s.world.state.workspaces && FreshIds(s.world, env)
    ensures Leads(With(s, a, Forgetting(p), Outside), t) && a in t.agents && t.agents[a] == Agent(Rest, Outside) && Removed(t, p)
    ensures t.world.state.workspaces == s.world.state.workspaces && t.worktrees == s.worktrees
  {
    TreeDropApplies(s.world, p, env);
    ForgettingCall(p, env, s.world, Apply(s.world.state, DropTree(p), env));
    CanUpdate(s, a, Forgetting(p), DropTree(p), env);
    t := With(After(s, Step(s.world, DropTree(p), env)), a, Rest, Outside);
  }

  lemma DirectoryIsRemoved(s: System, a: nat, p: Path)
    requires p in s.worktrees && p !in s.locked
    ensures Leads(With(s, a, Removing(p), Outside), With(s.(worktrees := s.worktrees - {p}), a, Forgetting(p), Outside))
  {
    CanRunGit(s, a, Removing(p), Remove);
  }

  /** And one that Ruk has no record of can be removed, directory and tree entry. */
  lemma WorktreeIsRemoved(s: System, a: nat, p: Path) returns (t: System)
    requires a !in s.agents && Ready(s, a) && p in s.worktrees && p !in s.locked && p !in s.world.state.workspaces
    ensures Leads(s, t) && a in t.agents && t.agents[a] == Agent(Rest, Outside) && Removed(t, p)
    ensures t.world.state.workspaces == s.world.state.workspaces && t.worktrees == s.worktrees - {p}
  {
    var rest, bare := With(s, a, Rest, Outside), s.(worktrees := s.worktrees - {p});
    OneStep(s, Enter(a), rest);
    ReachesRemoving(s, a, p);
    LeadsOn(s, rest, With(s, a, Removing(p), Outside));
    DirectoryIsRemoved(s, a, p);
    LeadsOn(s, With(s, a, Removing(p), Outside), With(bare, a, Forgetting(p), Outside));
    var env := FreshEnv(s.world, 0);
    t := ForgettingEnds(bare, a, p, env);
    LeadsOn(s, With(bare, a, Forgetting(p), Outside), t);
  }
}
