/**
 Where what a stored document says comes from: over every run of lifecycle calls, whoever makes them, each
 assignment, port, keeper, tracked process and branch is one that some call asked for, under the very
 identifiers the document shows, and the counters count exactly the calls that were accepted.
 */
module Provenance {
  import opened Common
  import opened RukState
  import opened Transitions
  import opened Lifecycle
  import opened Fences
  import opened Ownership
  import Effects

  /** The call that handed a workspace out: it drew the identifier, and its input names the owner. */
  predicate HandsOut(ev: Event, a: Assignment) {
    EditOf(ev.command).Some? && Publishes(EditOf(ev.command).value) &&
    var input := Effects.InputOf(EditOf(ev.command).value);
    ev.env.first == a.id && input.owner == a.owner && input.hostname == a.hostname && ev.env.now == a.assignedAt
  }

  predicate HandsIn(ev: Event, r: Process) {
    match ev.command
    case At(_, FinishPreparation(_, Some(_), handed)) => handed == Some(r)
    case At(_, TrackInstaller(_, tracked)) => tracked == r
    case For(_, Retain(_, _, handed)) => handed == Some(r)
    case For(_, AddProcess(added)) => added == r
    case _ => false
  }

  predicate GivesPort(ev: Event, id: Id, name: string, port: int) {
    match ev.command
    case For(holder, PublishPorts(ports)) => holder == id && name in ports && ports[name] == port
    case _ => false
  }

  predicate StartsKeeper(ev: Event, id: Id, k: Keeper) {
    match ev.command
    case For(holder, BeginActivity(keeper, _)) => holder == id && keeper == k.id
    case _ => false
  }

  predicate AsksForBranch(ev: Event, branch: string) {
    match ev.command
    case BeginPreparation(_, asked) => asked == branch
    case At(_, MarkAssigned(_, input)) => input.branch == branch
    case Reserve(_, input) => input.branch == branch
    case _ => false
  }

  ghost predicate AssignmentTraced(a: Assignment, events: seq<Event>) {
    && (exists ev :: ev in events && HandsOut(ev, a))
    && (forall name :: name in a.ports ==> exists ev :: ev in events && GivesPort(ev, a.id, name, a.ports[name]))
    && (forall k :: k in a.keepers ==> exists ev :: ev in events && StartsKeeper(ev, a.id, k))
  }

  ghost predicate ProcessesTraced(processes: seq<Process>, events: seq<Event>) {
    forall r :: r in processes ==> exists ev :: ev in events && HandsIn(ev, r)
  }

  ghost predicate RecordTraced(w: Workspace, events: seq<Event>) {
    && (w.assignment.Some? ==> AssignmentTraced(w.assignment.value, events))
    && ProcessesTraced(w.processes, events)
    && (exists ev :: ev in events && AsksForBranch(ev, w.branch))
  }

  ghost predicate Traced(world: World, events: seq<Event>) {
    forall p :: p in world.state.workspaces ==> RecordTraced(world.state.workspaces[p], events)
  }

  lemma AssignmentStaysTraced(a: Assignment, events: seq<Event>, ev: Event)
    requires AssignmentTraced(a, events)
    ensures AssignmentTraced(a, events + [ev])
  {
    forall e | e in events ensures e in events + [ev] {}
  }

  lemma ProcessesStayTraced(processes: seq<Process>, events: seq<Event>, ev: Event)
    requires ProcessesTraced(processes, events)
    ensures ProcessesTraced(processes, events + [ev])
  {
    forall e | e in events ensures e in events + [ev] {}
  }

  lemma RecordStaysTraced(w: Workspace, events: seq<Event>, ev: Event)
    requires RecordTraced(w, events)
    ensures RecordTraced(w, events + [ev])
  {
    if w.assignment.Some? { AssignmentStaysTraced(w.assignment.value, events, ev); }
    ProcessesStayTraced(w.processes, events, ev);
    var asked :| asked in events && AsksForBranch(asked, w.branch);
    assert asked in events + [ev];
  }

  /** A call that hands a workspace out is where the new assignment comes from. */
  lemma HandedOutIsTraced(w: Workspace, ev: Event, events: seq<Event>, w': Workspace)
    requires EditOf(ev.command).Some? && Publishes(EditOf(ev.command).value)
    requires Edited(w, EditOf(ev.command).value, ev.env) == Ok(w')
    ensures w'.assignment.Some? && AssignmentTraced(w'.assignment.value, events + [ev])
  {
    Effects.HandingOutWritesTheInput(w, EditOf(ev.command).value, ev.env);
    assert ev in events + [ev] && HandsOut(ev, w'.assignment.value);
  }

  lemma KeptKeepersAreTraced(w: Workspace, ev: Event, events: seq<Event>, b: Assignment)
    requires ValidWorkspace(w) && w.assignment.Some? && ev.command.For? && ev.command.id == w.assignment.value.id == b.id
    requires AssignmentTraced(w.assignment.value, events)
    requires !Publishes(ev.command.edit) && !ev.command.edit.FinishReturn?
    requires Edited(w, ev.command.edit, ev.env).Ok? && Edited(w, ev.command.edit, ev.env).value.assignment == Some(b)
    ensures forall k :: k in b.keepers ==> exists e :: e in events + [ev] && StartsKeeper(e, b.id, k)
  {
    var a := w.assignment.value;
    Effects.KeepersAreAsAsked(w, ev.command.edit, ev.env);
    forall k | k in b.keepers ensures exists e :: e in events + [ev] && StartsKeeper(e, b.id, k) {
      assert Effects.KeeperAfter(a, ev.command.edit, ev.env, b.renewedAt, k);
      if own: Keeper :| own in a.keepers && own.id == k.id {
        var e :| e in events && StartsKeeper(e, a.id, own);
        assert e in events + [ev] && StartsKeeper(e, b.id, k);
      } else {
        assert ev in events + [ev] && StartsKeeper(ev, b.id, k);
      }
    }
  }

  lemma KeptPortsAreTraced(w: Workspace, ev: Event, events: seq<Event>, b: Assignment)
    requires ValidWorkspace(w) && w.assignment.Some? && ev.command.For? && ev.command.id == w.assignment.value.id == b.id
    requires AssignmentTraced(w.assignment.value, events)
    requires !Publishes(ev.command.edit) && !ev.command.edit.FinishReturn?
    requires Edited(w, ev.command.edit, ev.env).Ok? && Edited(w, ev.command.edit, ev.env).value.assignment == Some(b)
    ensures forall name :: name in b.ports ==> exists e :: e in events + [ev] && GivesPort(e, b.id, name, b.ports[name])
  {
    Effects.PortsAreAsAsked(w, ev.command.edit, ev.env);
    forall name | name in b.ports ensures exists e :: e in events + [ev] && GivesPort(e, b.id, name, b.ports[name]) {
      if ev.command.edit.PublishPorts? {
        assert ev in events + [ev] && GivesPort(ev, b.id, name, b.ports[name]);
      } else {
        var e :| e in events && GivesPort(e, b.id, name, b.ports[name]);
        assert e in events + [ev];
      }
    }
  }

  lemma KeptAssignmentIsTraced(w: Workspace, ev: Event, events: seq<Event>, w': Workspace)
    requires ValidWorkspace(w) && w.assignment.Some? && AssignmentTraced(w.assignment.value, events)
    requires ev.command.For? && ev.command.id == w.assignment.value.id
    requires !Publishes(ev.command.edit) && !ev.command.edit.FinishReturn? && Edited(w, ev.command.edit, ev.env) == Ok(w')
    ensures w'.assignment.Some? && AssignmentTraced(w'.assignment.value, events + [ev])
  {
    Effects.TenureLasts(w, ev.command.edit, ev.env);
    var a, b := w.assignment.value, w'.assignment.value;
    var e :| e in events && HandsOut(e, a);
    assert e in events + [ev] && HandsOut(e, b);
    KeptKeepersAreTraced(w, ev, events, b);
    KeptPortsAreTraced(w, ev, events, b);
  }

  /** A call addressed by path leaves an assignment, where there is one, as it is. */
  lemma PathEditLeavesAssignment(w: Workspace, e: Edit, env: Env, w': Workspace)
    requires ValidWorkspace(w) && PathEdit(e) && !Publishes(e) && Edited(w, e, env) == Ok(w')
    ensures w'.assignment == w.assignment
  {
  }

  lemma AssignmentAfterIsTraced(w: Workspace, ev: Event, events: seq<Event>, w': Workspace)
    requires ValidWorkspace(w) && RecordTraced(w, events) && EditOf(ev.command).Some?
    requires Edited(w, EditOf(ev.command).value, ev.env) == Ok(w')
    requires (ev.command.At? ==> PathEdit(ev.command.edit)) && (ev.command.For? ==> w.Carries(ev.command.id) && AssignmentEdit(ev.command.edit))
    ensures w'.assignment.Some? ==> AssignmentTraced(w'.assignment.value, events + [ev])
  {
    var e := EditOf(ev.command).value;
    if Publishes(e) {
      HandedOutIsTraced(w, ev, events, w');
    } else if ev.command.At? {
      PathEditLeavesAssignment(w, e, ev.env, w');
      if w.assignment.Some? { AssignmentStaysTraced(w.assignment.value, events, ev); }
    } else if e.FinishReturn? {
      Effects.TenureLasts(w, e, ev.env);
    } else {
      KeptAssignmentIsTraced(w, ev, events, w');
    }
  }

  /** Every process a call leaves tracked was tracked before or handed in by it. */
  lemma ProcessesComeFromCalls(w: Workspace, e: Edit, env: Env, w': Workspace, r: Process)
    requires ValidWorkspace(w) && Edited(w, e, env) == Ok(w') && r in w'.processes && r !in w.processes
    ensures match e
            case FinishPreparation(_, Some(_), handed) => handed == Some(r)
            case Retain(_, _, handed) => handed == Some(r)
            case TrackInstaller(_, tracked) => tracked == r
            case AddProcess(added) => added == r
            case _ => false
  {
    Effects.ProcessesAreAsAsked(w, e, env);
  }

  lemma ProcessesAfterAreTraced(w: Workspace, ev: Event, events: seq<Event>, w': Workspace)
    requires ValidWorkspace(w) && RecordTraced(w, events) && EditOf(ev.command).Some?
    requires Edited(w, EditOf(ev.command).value, ev.env) == Ok(w')
    requires (ev.command.At? ==> PathEdit(ev.command.edit)) && (ev.command.For? ==> AssignmentEdit(ev.command.edit))
    ensures ProcessesTraced(w'.processes, events + [ev])
  {
    ProcessesStayTraced(w.processes, events, ev);
    forall r | r in w'.processes && r !in w.processes ensures exists e :: e in events + [ev] && HandsIn(e, r) {
      ProcessesComeFromCalls(w, EditOf(ev.command).value, ev.env, w', r);
      assert ev in events + [ev] && HandsIn(ev, r);
    }
  }

  lemma BranchAfterIsTraced(w: Workspace, ev: Event, events: seq<Event>, w': Workspace)
    requires ValidWorkspace(w) && RecordTraced(w, events) && EditOf(ev.command).Some?
    requires Edited(w, EditOf(ev.command).value, ev.env) == Ok(w')
    requires (ev.command.At? ==> PathEdit(ev.command.edit)) && (ev.command.For? ==> AssignmentEdit(ev.command.edit))
    ensures exists e :: e in events + [ev] && AsksForBranch(e, w'.branch)
  {
    var e := EditOf(ev.command).value;
    var asked :| asked in events && AsksForBranch(asked, w.branch);
    assert asked in events + [ev] && ev in events + [ev];
    if Publishes(e) {
      Effects.HandingOutWritesTheInput(w, e, ev.env);
      if w'.branch != w.branch { assert AsksForBranch(ev, w'.branch); }
    } else {
      Effects.TenureLasts(w, e, ev.env);
    }
  }

  lemma EditedRecordIsTraced(w: Workspace, ev: Event, events: seq<Event>, w': Workspace)
    requires ValidWorkspace(w) && RecordTraced(w, events) && EditOf(ev.command).Some?
    requires Edited(w, EditOf(ev.command).value, ev.env) == Ok(w')
    requires (ev.command.At? ==> PathEdit(ev.command.edit)) && (ev.command.For? ==> w.Carries(ev.command.id) && AssignmentEdit(ev.command.edit))
    ensures RecordTraced(w', events + [ev])
  {
    AssignmentAfterIsTraced(w, ev, events, w');
    ProcessesAfterAreTraced(w, ev, events, w');
    BranchAfterIsTraced(w, ev, events, w');
  }

  lemma StepStaysTraced(world: World, ev: Event, events: seq<Event>)
    requires WorldOk(world) && Traced(world, events)
    ensures Traced(Step(world, ev.command, ev.env), events + [ev])
  {
    var ws, ws' := world.state.workspaces, Step(world, ev.command, ev.env).state.workspaces;
    forall p | p in ws' ensures RecordTraced(ws'[p], events + [ev]) {
      if p !in ws {
        DecisionShape(ws, ev.command, ev.env);
        assert ev in events + [ev] && AsksForBranch(ev, ws'[p].branch);
      } else {
        RecordStep(world, ev.command, ev.env, p);
        if ws'[p] == ws[p] { RecordStaysTraced(ws[p], events, ev); } else { EditedRecordIsTraced(ws[p], ev, events, ws'[p]); }
      }
    }
  }

  lemma {:induction false} RunStaysTraced(world: World, events: seq<Event>, more: seq<Event>)
    requires WorldOk(world) && CanRun(world, more) && Traced(world, events)
    ensures Traced(Run(world, more), events + more)
    decreases more
  {
    if more == [] {
      assert events + more == events;
    } else {
      StepStaysTraced(world, more[0], events);
      StepKeepsWorldOk(world, more[0].command, more[0].env);
      assert events + more == (events + [more[0]]) + more[1..];
      RunStaysTraced(Step(world, more[0].command, more[0].env), events + [more[0]], more[1..]);
    }
  }

  /** Nothing in a stored document was made up: an assignment's owner and host are those of the call that
      drew its identifier, at the clock it saw; its ports and keepers were asked for under that
      identifier; each tracked process was handed in as it stands; the branch was asked for. */
  lemma NothingIsMadeUp(events: seq<Event>, p: Path)
    requires CanRun(FIRST_WORLD, events) && p in Run(FIRST_WORLD, events).state.workspaces
    ensures RecordTraced(Run(FIRST_WORLD, events).state.workspaces[p], events)
  {
    FirstWorldOk();
    RunStaysTraced(FIRST_WORLD, [], events);
    assert [] + events == events;
  }

  // ---------------------------------------------------------------------------------------------
  // The counters
  // ---------------------------------------------------------------------------------------------

  const NOTHING := Metrics(0, 0, 0, 0, 0, 0, None)

  /** What one accepted call adds. */
  function Added(c: Command): Metrics {
    match c
    case For(_, RecordSuccess(_, true)) => Metrics(1, 1, 0, 0, 0, 0, None)
    case For(_, RecordSuccess(_, false)) => Metrics(1, 0, 0, 0, 0, 0, None)
    case RecordMetric(PreparedKind, spent) => Metrics(0, 0, 1, 0, 0, if spent < 0 then 0 else spent, Some(if spent < 0 then 0 else spent))
    case RecordMetric(SkippedKind, spent) => Metrics(0, 0, 0, 1, 0, 0, Some(if spent < 0 then 0 else spent))
    case RecordMetric(FailedKind, spent) => Metrics(0, 0, 0, 0, 1, 0, Some(if spent < 0 then 0 else spent))
    case _ => NOTHING
  }

  function Sum(m: Metrics, n: Metrics): Metrics {
    Metrics(m.acquisitions + n.acquisitions, m.reuses + n.reuses, m.preparations + n.preparations, m.skips + n.skips,
            m.failures + n.failures, m.totalMs + n.totalMs, if n.lastMs.Some? then n.lastMs else m.lastMs)
  }

  /** The sum over the calls of a run that were accepted. */
  ghost function Counted(world: World, events: seq<Event>): Metrics
    decreases events
  {
    if events == [] then NOTHING
    else
      var later := Counted(Step(world, events[0].command, events[0].env), events[1..]);
      if Apply(world.state, events[0].command, events[0].env).Ok? then Sum(Added(events[0].command), later) else later
  }

  lemma StepCounts(world: World, c: Command, env: Env)
    ensures Step(world, c, env).state.metrics ==
              if Apply(world.state, c, env).Ok? then Sum(world.state.metrics, Added(c)) else world.state.metrics
  {
  }

  lemma TallyJoins(m: Metrics, next: Metrics, accepted: bool, c: Command, later: Metrics)
    requires next == if accepted then Sum(m, Added(c)) else m
    requires later.reuses <= later.acquisitions
    ensures var all := if accepted then Sum(Added(c), later) else later;
            Sum(next, later) == Sum(m, all) && all.reuses <= all.acquisitions
  {
  }

  /** No acquisition or preparation is counted twice, or without being recorded, over any run; refused
      calls count for nothing. */
  lemma {:induction false} CountersCountAcceptedCalls(world: World, events: seq<Event>)
    ensures Run(world, events).state.metrics == Sum(world.state.metrics, Counted(world, events))
    ensures Counted(world, events).reuses <= Counted(world, events).acquisitions
    decreases events
  {
    if events == [] {
      assert Sum(world.state.metrics, NOTHING) == world.state.metrics;
    } else {
      var c, env := events[0].command, events[0].env;
      var next := Step(world, c, env);
      StepCounts(world, c, env);
      CountersCountAcceptedCalls(next, events[1..]);
      TallyJoins(world.state.metrics, next.state.metrics, Apply(world.state, c, env).Ok?, c, Counted(next, events[1..]));
    }
  }
}
