/**
 Operations fence, assignment identifiers are fencing tokens, and leases only move forward, over
 whole runs of lifecycle calls by any number of callers.
 */
module Ownership {
  import opened Common
  import opened RukState
  import opened Transitions
  import opened Validity
  import opened Lifecycle
  import opened Fences

  // ---------------------------------------------------------------------------------------------
  // Operation fences
  // ---------------------------------------------------------------------------------------------

  /** An assignment whose acquisition (or a return that crossed it) is marked with `o`. */
  predicate Marked(w: Workspace, o: Id) { w.Owned() && w.operation == Some(o) }

  /** A record fenced for collection with `o`. */
  predicate Collecting(w: Workspace, o: Id) { (w.lifecycle.Available? || w.lifecycle.Failed?) && w.operation == Some(o) }

  /** A preparation fenced with `o`. */
  predicate PreparingWith(w: Workspace, o: Id) { w.lifecycle.Preparing? && w.operation == Some(o) }

  lemma RecordGone(world: World, c: Command, env: Env, p: Path)
    requires WorldOk(world) && p in world.state.workspaces && p !in Step(world, c, env).state.workspaces
    ensures c.DeleteRecord? && c.path == p && Deletable(world.state.workspaces[p], c.operation)
  {
  }

  lemma RecordChanged(world: World, c: Command, env: Env, p: Path)
    requires WorldOk(world) && p in world.state.workspaces && p in Step(world, c, env).state.workspaces
    requires Step(world, c, env).state.workspaces[p] != world.state.workspaces[p]
    ensures EditOf(c).Some? && Edited(world.state.workspaces[p], EditOf(c).value, env) == Ok(Step(world, c, env).state.workspaces[p])
    ensures c.At? ==> c.path == p && PathEdit(c.edit)
    ensures c.For? ==> world.state.workspaces[p].Carries(c.id) && AssignmentEdit(c.edit)
  {
    DecisionShape(world.state.workspaces, c, env);
  }

  /** What a step did to the record at `p`, when it did anything. */
  lemma RecordStep(world: World, c: Command, env: Env, p: Path)
    requires WorldOk(world) && p in world.state.workspaces
    ensures var ws, ws' := world.state.workspaces, Step(world, c, env).state.workspaces;
            && (p !in ws' ==> c.DeleteRecord? && c.path == p && Deletable(ws[p], c.operation))
            && (p in ws' && ws'[p] != ws[p] ==>
                  && EditOf(c).Some? && Edited(ws[p], EditOf(c).value, env) == Ok(ws'[p])
                  && (c.At? ==> c.path == p && PathEdit(c.edit))
                  && (c.For? ==> ws[p].Carries(c.id) && AssignmentEdit(c.edit)))
  {
    var ws' := Step(world, c, env).state.workspaces;
    if p !in ws' {
      RecordGone(world, c, env, p);
    } else if ws'[p] != world.state.workspaces[p] {
      RecordChanged(world, c, env, p);
    }
  }

  lemma MarkedEdit(w: Workspace, e: Edit, env: Env, o: Id)
    requires Marked(w, o) && Edited(w, e, env).Ok? && !(e.CancelCollection? && e.operation == o)
    ensures var w' := Edited(w, e, env).value;
            && (w.lifecycle.Assigned? && !Marked(w', o) ==> (e.Retain? || e.RecordSuccess?) && e.operation == o)
            && (w.lifecycle.Assigned? && w'.lifecycle.Returning? ==> e.BeginReturn? && e.acquisition == Some(o))
            && (w.lifecycle.Returning? && !Marked(w', o) ==> e.FinishReturn? && w'.lifecycle.Available? && w'.assignment.None?)
            && (w.lifecycle.Returning? && w'.lifecycle.Assigned? ==> e.CancelReturn?)
            && (Marked(w', o) && w.assignment.Some? ==> SameAssignment(w, w'))
  {
  }

  ghost predicate MarkedKept(w: Workspace, ws': map<Path, Workspace>, c: Command, p: Path, o: Id) {
    && p in ws'
    && (Marked(ws'[p], o) ==> SameAssignment(w, ws'[p]))
    && (w.lifecycle.Assigned? && !Marked(ws'[p], o) ==>
          c.For? && w.Carries(c.id) && (c.edit.Retain? || c.edit.RecordSuccess?) && c.edit.operation == o)
    && (w.lifecycle.Assigned? && ws'[p].lifecycle.Returning? ==>
          c.For? && w.Carries(c.id) && c.edit.BeginReturn? && c.edit.acquisition == Some(o))
    && (w.lifecycle.Returning? && !Marked(ws'[p], o) ==>
          c.For? && w.Carries(c.id) && c.edit.FinishReturn? && ws'[p].assignment.None?)
  }

  /** A marked assignment leaves the marked state only by a call that carries its operation, or by
      finishing the return that such a call opened; until then it keeps its assignment, and it is
      never deleted under its owner. */
  lemma MarkedLeavesOnlyByItsOperation(world: World, c: Command, env: Env, p: Path, o: Id)
    requires WorldOk(world) && Licensed(world, c)
    requires p in world.state.workspaces && Marked(world.state.workspaces[p], o)
    ensures MarkedKept(world.state.workspaces[p], Step(world, c, env).state.workspaces, c, p, o)
  {
    RecordStep(world, c, env, p);
    var w := world.state.workspaces[p];
    assert KindOk(world, w) && ValidWorkspace(w);
    if Step(world, c, env).state.workspaces[p] != w {
      MarkedEdit(w, EditOf(c).value, env, o);
    }
  }

  lemma CollectingEdit(w: Workspace, e: Edit, env: Env, o: Id)
    requires Collecting(w, o) && w.processes == [] && w.assignment.None? && Edited(w, e, env).Ok?
    ensures var w' := Edited(w, e, env).value;
            && (w' != w ==> e.CancelCollection? && e.operation == o && w'.operation.None?)
            && w'.processes == [] && w'.lifecycle == w.lifecycle
  {
  }

  lemma PreparingEdit(w: Workspace, e: Edit, env: Env, o: Id)
    requires PreparingWith(w, o) && w.assignment.None? && Edited(w, e, env).Ok? && !(e.CancelCollection? && e.operation == o)
    ensures !PreparingWith(Edited(w, e, env).value, o) ==>
              e.BeginCollection? || ((e.FinishPreparation? || e.MarkAssigned?) && e.operation == o)
  {
  }

  ghost predicate CollectingKept(w: Workspace, ws': map<Path, Workspace>, c: Command, p: Path, o: Id) {
    && (p !in ws' ==> c == DeleteRecord(p, o))
    && (p in ws' && ws'[p] != w ==> c == At(p, CancelCollection(o)) && ws'[p].operation.None?)
    && (p in ws' ==> ws'[p].processes == [] && ws'[p].lifecycle == w.lifecycle)
  }

  /** A record fenced for collection changes only by calls carrying that operation, and stays free
      of tracked processes. */
  lemma CollectingChangesOnlyByItsOperation(world: World, c: Command, env: Env, p: Path, o: Id)
    requires WorldOk(world) && p in world.state.workspaces && Collecting(world.state.workspaces[p], o)
    ensures world.state.workspaces[p].processes == []
    ensures CollectingKept(world.state.workspaces[p], Step(world, c, env).state.workspaces, c, p, o)
  {
    RecordStep(world, c, env, p);
    var w := world.state.workspaces[p];
    assert KindOk(world, w) && ValidWorkspace(w);
    var ws' := Step(world, c, env).state.workspaces;
    if p in ws' && ws'[p] != w { CollectingEdit(w, EditOf(c).value, env, o); }
  }

  ghost predicate PreparationKept(ws': map<Path, Workspace>, c: Command, p: Path, o: Id) {
    && p in ws'
    && (!PreparingWith(ws'[p], o) ==>
          c.At? && c.path == p &&
          (c.edit.BeginCollection? || ((c.edit.FinishPreparation? || c.edit.MarkAssigned?) && c.edit.operation == o)))
  }

  /** A preparation changes its fence only by a call carrying it, or by a collection taking over. */
  lemma PreparationLeavesOnlyByItsOperation(world: World, c: Command, env: Env, p: Path, o: Id)
    requires WorldOk(world) && Licensed(world, c)
    requires p in world.state.workspaces && PreparingWith(world.state.workspaces[p], o)
    ensures PreparationKept(Step(world, c, env).state.workspaces, c, p, o)
  {
    RecordStep(world, c, env, p);
    var w := world.state.workspaces[p];
    assert KindOk(world, w) && ValidWorkspace(w);
    var ws' := Step(world, c, env).state.workspaces;
    if ws'[p] != w { PreparingEdit(w, EditOf(c).value, env, o); }
  }

  ghost predicate ReturningKept(w: Workspace, ws': map<Path, Workspace>, c: Command, p: Path, id: Id) {
    && p in ws'
    && (!(c.For? && c.id == id && (c.edit.FinishReturn? || c.edit.CancelReturn?)) ==>
          ws'[p].lifecycle.Returning? && ws'[p].Carries(id))
    && (forall r :: r in ws'[p].processes ==> r in w.processes)
  }

  /** A record being returned leaves that state only by its return ending, and nothing registers a
      process with it. */
  lemma ReturningLeavesOnlyByItsReturn(world: World, c: Command, env: Env, p: Path, id: Id)
    requires WorldOk(world) && p in world.state.workspaces
    requires world.state.workspaces[p].lifecycle.Returning? && world.state.workspaces[p].Carries(id)
    ensures ReturningKept(world.state.workspaces[p], Step(world, c, env).state.workspaces, c, p, id)
  {
    RecordStep(world, c, env, p);
    var w := world.state.workspaces[p];
    assert ValidWorkspace(w);
    if Step(world, c, env).state.workspaces[p] != w { ReturningEdit(w, EditOf(c).value, env, id); }
  }

  lemma ReturningEdit(w: Workspace, e: Edit, env: Env, id: Id)
    requires w.lifecycle.Returning? && w.Carries(id) && Edited(w, e, env).Ok?
    ensures var w' := Edited(w, e, env).value;
            && (!e.FinishReturn? && !e.CancelReturn? ==> w'.lifecycle.Returning? && w'.Carries(id))
            && (e.FinishReturn? ==> w.processes == [] && w'.assignment.None?)
            && (e.CancelReturn? ==> w' == w.(lifecycle := Assigned, updatedAt := env.now, availableAt := None, failure := Some(e.failure)))
            && (forall r :: r in w'.processes ==> r in w.processes)
  {
  }

  /** Operations that fence nothing any more, or nothing yet but are drawn already. */
  ghost predicate Spent(world: World, o: Id) {
    o in world.used && forall p :: p in world.state.workspaces ==> world.state.workspaces[p].operation != Some(o)
  }

  lemma SpentStep(world: World, c: Command, env: Env, o: Id)
    requires WorldOk(world) && FreshIds(world, env) && Spent(world, o)
    ensures Spent(Step(world, c, env), o)
  {
    var ws, ws' := world.state.workspaces, Step(world, c, env).state.workspaces;
    forall p | p in ws' ensures ws'[p].operation != Some(o) {
      if p in ws {
        RecordStep(world, c, env, p);
        if ws'[p] != ws[p] { EditIdentifiers(ws[p], EditOf(c).value, env); }
      } else {
        DecisionShape(ws, c, env);
      }
    }
  }

  /** Calls that finish or continue work under operation `o`. */
  predicate WorksUnder(c: Command, o: Id) {
    match c
    case At(_, e) =>
      ((e.FinishPreparation? || e.MarkAssigned? || e.CancelCollection?) && e.operation == o)
      || ((e.TrackInstaller? || e.UntrackInstaller?) && e.fence == ForPreparation(o))
    case For(_, e) => (e.Retain? || e.RecordSuccess? || e.RefreshLease?) && e.operation == o
    case DeleteRecord(_, operation) => operation == o
    case _ => false
  }

  lemma SpentIsRefused(world: World, c: Command, env: Env, o: Id)
    requires Spent(world, o) && WorksUnder(c, o)
    ensures Apply(world.state, c, env).Err?
  {
  }

  lemma {:induction false} SpentStaysRefused(world: World, events: seq<Event>, c: Command, env: Env, o: Id)
    requires WorldOk(world) && CanRun(world, events) && Spent(world, o) && WorksUnder(c, o)
    ensures Spent(Run(world, events), o)
    ensures Step(Run(world, events), c, env).state == Run(world, events).state
    decreases events
  {
    if events == [] {
      SpentIsRefused(world, c, env, o);
    } else {
      SpentStep(world, events[0].command, events[0].env, o);
      StepKeepsWorldOk(world, events[0].command, events[0].env);
      SpentStaysRefused(Step(world, events[0].command, events[0].env), events[1..], c, env, o);
    }
  }

  /** Once GC takes over a preparation, every later call of the old preparer is refused, whatever
      happens in between. */
  lemma TakenOverPreparerIsRefused(world: World, p: Path, o: Id, seen: int, env: Env, events: seq<Event>, late: Command, lateEnv: Env)
    requires WorldOk(world) && FreshIds(world, env)
    requires p in world.state.workspaces && PreparingWith(world.state.workspaces[p], o)
    requires Apply(world.state, At(p, BeginCollection(seen)), env).Ok?
    requires CanRun(Step(world, At(p, BeginCollection(seen)), env), events) && WorksUnder(late, o)
    ensures var after := Run(Step(world, At(p, BeginCollection(seen)), env), events);
            Step(after, late, lateEnv).state == after.state
  {
    var c := At(p, BeginCollection(seen));
    var taken := Step(world, c, env);
    StepKeepsWorldOk(world, c, env);
    forall q | q in taken.state.workspaces ensures taken.state.workspaces[q].operation != Some(o) {
      if q != p { assert taken.state.workspaces[q] == world.state.workspaces[q]; assert !SameOperation(world.state.workspaces[p], world.state.workspaces[q]); }
    }
    SpentStaysRefused(taken, events, late, lateEnv, o);
  }

  // ---------------------------------------------------------------------------------------------
  // Assignment identifiers
  // ---------------------------------------------------------------------------------------------

  ghost predicate Present(world: World, id: Id) {
    exists p :: p in world.state.workspaces && world.state.workspaces[p].Carries(id)
  }

  lemma GoneStep(world: World, c: Command, env: Env, id: Id)
    requires WorldOk(world) && FreshIds(world, env) && id in world.used && !Present(world, id)
    ensures !Present(Step(world, c, env), id)
  {
    var ws, ws' := world.state.workspaces, Step(world, c, env).state.workspaces;
    forall p | p in ws' ensures !ws'[p].Carries(id) {
      if p in ws {
        RecordStep(world, c, env, p);
        if ws'[p] != ws[p] { EditIdentifiers(ws[p], EditOf(c).value, env); }
      } else {
        DecisionShape(ws, c, env);
      }
    }
  }

  lemma {:induction false} GoneStaysGone(world: World, events: seq<Event>, id: Id)
    requires WorldOk(world) && CanRun(world, events) && id in world.used && !Present(world, id)
    ensures !Present(Run(world, events), id)
    decreases events
  {
    if events != [] {
      GoneStep(world, events[0].command, events[0].env, id);
      StepKeepsWorldOk(world, events[0].command, events[0].env);
      GoneStaysGone(Step(world, events[0].command, events[0].env), events[1..], id);
    }
  }

  lemma {:induction false} UsedStaysUsed(world: World, events: seq<Event>, id: Id)
    requires id in world.used
    ensures id in Run(world, events).used
    decreases events
  {
    if events != [] { UsedStaysUsed(Step(world, events[0].command, events[0].env), events[1..], id); }
  }

  lemma GoneIsRefused(world: World, id: Id, late: Edit, env: Env)
    requires !Present(world, id)
    ensures Apply(world.state, For(id, late), env).Err?
    ensures Step(world, For(id, late), env).state == world.state
    ensures forall p, r :: Apply(world.state, At(p, TrackInstaller(ForAssignment(id), r)), env).Err?
  {
    assert Holder(world.state.workspaces, id).None?;
  }

  /** Once an assignment identifier leaves the state it never reappears, and every later call that
      carries it (renewal, heartbeat, process, return, retention, ports) is refused without a trace. */
  lemma AssignmentIdsAreFencingTokens(world: World, first: seq<Event>, second: seq<Event>, id: Id, late: Edit, env: Env)
    requires WorldOk(world) && Present(world, id)
    requires CanRun(world, first) && !Present(Run(world, first), id) && CanRun(Run(world, first), second)
    ensures var after := Run(Run(world, first), second);
            && !Present(after, id)
            && Apply(after.state, For(id, late), env).Err?
            && Step(after, For(id, late), env).state == after.state
            && forall p, r :: Apply(after.state, At(p, TrackInstaller(ForAssignment(id), r)), env).Err?
  {
    RunKeepsWorldOk(world, first);
    UsedStaysUsed(world, first, id);
    GoneStaysGone(Run(world, first), second, id);
    GoneIsRefused(Run(Run(world, first), second), id, late, env);
  }
}
