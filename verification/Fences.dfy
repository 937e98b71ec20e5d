/**
 Runs of lifecycle calls: the state stays valid, operations fence, and assignment identifiers are
 fencing tokens.
 */
module Fences {
  import opened Common
  import opened RukState
  import opened Transitions
  import opened Validity
  import opened Lifecycle
  import opened Calendar

  // ---------------------------------------------------------------------------------------------
  // What the identifiers of one record can become
  // ---------------------------------------------------------------------------------------------

  function EditOf(c: Command): Option<Edit> {
    match c
    case At(_, e) => Some(e)
    case For(_, e) => Some(e)
    case Reserve(_, input) => Some(TakeAvailable(input))
    case _ => None
  }

  predicate Publishes(e: Edit) { e.MarkAssigned? || e.TakeAvailable? }

  /** Path and age stay; the operation stays, ends, or is one the call has just drawn. */
  predicate OperationMoves(w: Workspace, e: Edit, env: Env, w': Workspace) {
    && w'.path == w.path && w'.createdAt == w.createdAt
    && (w'.operation == w.operation || w'.operation == None
        || (Publishes(e) && w'.operation == Some(env.second))
        || (e.BeginCollection? && w'.operation == Some(env.first)))
  }

  /** The assignment stays, ends, or is one the call has just drawn; only publishing changes its ports. */
  predicate AssignmentMoves(w: Workspace, e: Edit, env: Env, w': Workspace) {
    && (w'.assignment == None
        || (!Publishes(e) && SameAssignment(w, w') && (e.PublishPorts? || w'.assignment.value.ports == w.assignment.value.ports))
        || (Publishes(e) && w'.Carries(env.first) && w'.assignment.value.ports == map[]))
    && (e.PublishPorts? ==> w'.assignment.Some? && w'.assignment.value.ports == e.ports)
  }

  lemma EditOperation(w: Workspace, e: Edit, env: Env)
    requires Edited(w, e, env).Ok?
    ensures OperationMoves(w, e, env, Edited(w, e, env).value)
  {
  }

  lemma EditAssignment(w: Workspace, e: Edit, env: Env)
    requires Edited(w, e, env).Ok?
    ensures AssignmentMoves(w, e, env, Edited(w, e, env).value)
  {
  }

  lemma EditIdentifiers(w: Workspace, e: Edit, env: Env)
    requires Edited(w, e, env).Ok?
    ensures OperationMoves(w, e, env, Edited(w, e, env).value) && AssignmentMoves(w, e, env, Edited(w, e, env).value)
  {
    EditOperation(w, e, env);
    EditAssignment(w, e, env);
  }

  /** A successful decision writes one record: a new preparation, or one edit of an existing one. */
  lemma DecisionShape(ws: map<Path, Workspace>, c: Command, env: Env)
    requires Decide(ws, c, env).Ok? && Decide(ws, c, env).value.Put?
    ensures var d := Decide(ws, c, env).value;
            && (c.BeginPreparation? ==> d.path !in ws && d.workspace == Prepared(d.path, c.branch, env) && c.branch != "")
            && (!c.BeginPreparation? ==>
                  && d.path in ws && EditOf(c).Some?
                  && Edited(ws[d.path], EditOf(c).value, env) == Ok(d.workspace))
            && (EditOf(c).Some? && EditOf(c).value.PublishPorts? ==> PortsFree(ws, EditOf(c).value.ports))
            && (c.For? ==> ws[d.path].Carries(c.id) && AssignmentEdit(c.edit))
            && (c.At? ==> d.path == c.path && PathEdit(c.edit))
  {
  }

  // ---------------------------------------------------------------------------------------------
  // Inductive validity
  // ---------------------------------------------------------------------------------------------

  ghost predicate RecordIdsIn(w: Workspace, used: set<Id>) {
    (w.operation.Some? ==> w.operation.value in used) && (w.assignment.Some? ==> w.assignment.value.id in used)
  }

  ghost predicate IdsKnown(world: World) {
    && (forall p :: p in world.state.workspaces ==> RecordIdsIn(world.state.workspaces[p], world.used))
    && world.collections <= world.used
  }

  /** Which kind of operation a record is fenced with, and what a collection fence implies. */
  ghost predicate KindOk(world: World, w: Workspace) {
    w.operation.Some? ==>
      && (w.operation.value in world.collections <==> w.lifecycle.Available? || w.lifecycle.Failed?)
      && (w.lifecycle.Available? || w.lifecycle.Failed? ==> w.processes == [])
  }

  ghost predicate KindsOk(world: World) {
    forall p :: p in world.state.workspaces ==> KindOk(world, world.state.workspaces[p])
  }

  ghost predicate WorldOk(world: World) {
    ValidState(world.state) && IdsKnown(world) && KindsOk(world)
  }

  lemma OperationsAfterPut(world: World, c: Command, env: Env)
    requires WorldOk(world) && FreshIds(world, env)
    requires Decide(world.state.workspaces, c, env).Ok? && Decide(world.state.workspaces, c, env).value.Put?
    ensures DistinctOperations(Perform(world.state.workspaces, Decide(world.state.workspaces, c, env).value))
  {
    var ws := world.state.workspaces;
    var d := Decide(ws, c, env).value;
    DecisionShape(ws, c, env);
    if !c.BeginPreparation? { EditOperation(ws[d.path], EditOf(c).value, env); }
  }

  lemma AssignmentsAfterPut(world: World, c: Command, env: Env)
    requires WorldOk(world) && FreshIds(world, env)
    requires Decide(world.state.workspaces, c, env).Ok? && Decide(world.state.workspaces, c, env).value.Put?
    ensures DistinctAssignments(Perform(world.state.workspaces, Decide(world.state.workspaces, c, env).value))
  {
    var ws := world.state.workspaces;
    var d := Decide(ws, c, env).value;
    DecisionShape(ws, c, env);
    if !c.BeginPreparation? { EditAssignment(ws[d.path], EditOf(c).value, env); }
  }

  /** One record replaced by one that uses nobody else's ports, and no port twice. */
  lemma PortsAfterReplacing(ws: map<Path, Workspace>, p: Path, w': Workspace)
    requires DistinctPorts(ws)
    requires forall q, name, other, port :: q in ws && q != p && UsesPort(w', name, port) ==> !UsesPort(ws[q], other, port)
    requires forall name, other, port :: UsesPort(w', name, port) && UsesPort(w', other, port) ==> name == other
    ensures DistinctPorts(ws[p := w'])
  {
  }

  lemma PortsOfPublishing(ws: map<Path, Workspace>, p: Path, w': Workspace, ports: map<string, int>)
    requires DistinctPorts(ws) && PortsFree(ws, ports) && w'.assignment.Some? && w'.assignment.value.ports == ports
    ensures DistinctPorts(ws[p := w'])
  {
    forall q, name, other, port | q in ws && q != p && UsesPort(w', name, port) ensures !UsesPort(ws[q], other, port) {
      assert PortFree(ws, ports[name]);
    }
    PortsAfterReplacing(ws, p, w');
  }

  lemma PortsOfOtherEdits(ws: map<Path, Workspace>, p: Path, w': Workspace)
    requires DistinctPorts(ws) && p in ws
    requires w'.assignment.Some? ==> w'.assignment.value.ports == map[] || (ws[p].assignment.Some? && w'.assignment.value.ports == ws[p].assignment.value.ports)
    ensures DistinctPorts(ws[p := w'])
  {
    forall name, port | UsesPort(w', name, port) ensures UsesPort(ws[p], name, port) {}
    PortsAfterReplacing(ws, p, w');
  }

  lemma PortsAfterPut(world: World, c: Command, env: Env)
    requires WorldOk(world) && FreshIds(world, env)
    requires Decide(world.state.workspaces, c, env).Ok? && Decide(world.state.workspaces, c, env).value.Put?
    ensures DistinctPorts(Perform(world.state.workspaces, Decide(world.state.workspaces, c, env).value))
  {
    var ws := world.state.workspaces;
    var d := Decide(ws, c, env).value;
    DecisionShape(ws, c, env);
    if c.BeginPreparation? {
      PortsAfterReplacing(ws, d.path, d.workspace);
    } else {
      var e := EditOf(c).value;
      EditAssignment(ws[d.path], e, env);
      if e.PublishPorts? { PortsOfPublishing(ws, d.path, d.workspace, e.ports); } else { PortsOfOtherEdits(ws, d.path, d.workspace); }
    }
  }

  lemma FencesAfter(world: World, c: Command, env: Env)
    requires WorldOk(world) && FreshIds(world, env) && Decide(world.state.workspaces, c, env).Ok?
    ensures GlobalFences(Perform(world.state.workspaces, Decide(world.state.workspaces, c, env).value))
  {
    if Decide(world.state.workspaces, c, env).value.Put? {
      OperationsAfterPut(world, c, env);
      AssignmentsAfterPut(world, c, env);
      PortsAfterPut(world, c, env);
    }
  }

  // ---------------------------------------------------------------------------------------------
  // What the encode-time check still has to find out
  // ---------------------------------------------------------------------------------------------

  ghost predicate SoundRecords(ws: map<Path, Workspace>) {
    forall p :: p in ws ==> ws[p].path == p && Sound(ws[p])
  }

  ghost predicate RecordsInCalendar(ws: map<Path, Workspace>) { forall p :: p in ws ==> InCalendar(ws[p]) }

  lemma ValidStateParts(s: State)
    ensures ValidState(s) <==>
              && ValidTrees(s.trees) && ValidMetrics(s.metrics)
              && SoundRecords(s.workspaces) && RecordsInCalendar(s.workspaces) && GlobalFences(s.workspaces)
  {
    forall p | p in s.workspaces
      ensures ValidWorkspace(s.workspaces[p]) <==> Sound(s.workspaces[p]) && InCalendar(s.workspaces[p])
    {
      ValidIsSoundInCalendar(s.workspaces[p]);
    }
  }

  /** The record an accepted edit is about has to take what the caller hands over. */
  ghost predicate RecordDataOk(ws: map<Path, Workspace>, c: Command) {
    match c
    case At(p, e) => p in ws ==> Proper(ws[p], e)
    case For(id, e) => Holder(ws, id).Some? ==> Proper(ws[Holder(ws, id).value], e)
    case _ => true
  }

  ghost predicate CallerDataOk(s: State, c: Command) {
    RecordDataOk(s.workspaces, c) && (c.PutTree? ==> ValidTree(c.tree))
  }

  /** Every time the call would write can be represented. */
  ghost predicate TimesFit(ws: map<Path, Workspace>, c: Command, env: Env) {
    match c
    case BeginPreparation(_, _) => ValidTimestamp(env.now)
    case At(p, e) => p in ws ==> Fits(ws[p], e, env)
    case For(id, e) => Holder(ws, id).Some? ==> Fits(ws[Holder(ws, id).value], e, env)
    case Reserve(requested, input) => (exists p :: Oldest(ws, requested, p)) ==> InputFits(input, env)
    case _ => true
  }

  /** Every counter the call would raise is below its limit. */
  predicate CountersFit(m: Metrics, c: Command) {
    match c
    case For(_, RecordSuccess(_, reused)) => m.acquisitions < MAX_SAFE_INTEGER && (reused ==> m.reuses < MAX_SAFE_INTEGER)
    case RecordMetric(kind, milliseconds) =>
      && milliseconds <= MAX_SAFE_INTEGER
      && (match kind
          case PreparedKind =>
            m.preparations < MAX_SAFE_INTEGER && (milliseconds > 0 ==> milliseconds <= MAX_SAFE_INTEGER - m.totalMs)
          case SkippedKind => m.skips < MAX_SAFE_INTEGER
          case FailedKind => m.failures < MAX_SAFE_INTEGER)
    case _ => true
  }

  lemma PutIsSound(s: State, c: Command, env: Env)
    requires SoundRecords(s.workspaces)
    requires Decide(s.workspaces, c, env).Ok? && Decide(s.workspaces, c, env).value.Put?
    ensures var d := Decide(s.workspaces, c, env).value;
            d.workspace.path == d.path && (Sound(d.workspace) <==> RecordDataOk(s.workspaces, c))
  {
    var d := Decide(s.workspaces, c, env).value;
    DecisionShape(s.workspaces, c, env);
    if !c.BeginPreparation? {
      EditOperation(s.workspaces[d.path], EditOf(c).value, env);
      EditIsSoundExactlyWhenProper(s.workspaces[d.path], EditOf(c).value, env);
    }
  }

  lemma RecordsAfter(s: State, c: Command, env: Env)
    requires SoundRecords(s.workspaces) && Decide(s.workspaces, c, env).Ok?
    ensures SoundRecords(Perform(s.workspaces, Decide(s.workspaces, c, env).value)) <==> RecordDataOk(s.workspaces, c)
  {
    var d := Decide(s.workspaces, c, env).value;
    if d.Put? {
      PutIsSound(s, c, env);
      assert Perform(s.workspaces, d)[d.path] == d.workspace;
    }
  }

  lemma PutIsInCalendar(ws: map<Path, Workspace>, c: Command, env: Env)
    requires SoundRecords(ws) && RecordsInCalendar(ws)
    requires Decide(ws, c, env).Ok? && Decide(ws, c, env).value.Put?
    ensures InCalendar(Decide(ws, c, env).value.workspace) <==> TimesFit(ws, c, env)
  {
    var d := Decide(ws, c, env).value;
    DecisionShape(ws, c, env);
    if !c.BeginPreparation? { EditStaysInCalendarExactlyWhenItFits(ws[d.path], EditOf(c).value, env); }
  }

  lemma CalendarAfter(ws: map<Path, Workspace>, c: Command, env: Env)
    requires SoundRecords(ws) && RecordsInCalendar(ws) && Decide(ws, c, env).Ok?
    ensures RecordsInCalendar(Perform(ws, Decide(ws, c, env).value)) <==> TimesFit(ws, c, env)
  {
    var d := Decide(ws, c, env).value;
    if d.Put? {
      PutIsInCalendar(ws, c, env);
      assert Perform(ws, d)[d.path] == d.workspace;
    }
  }

  lemma CountersAfter(m: Metrics, c: Command)
    requires ValidMetrics(m)
    ensures ValidMetrics(Count(m, c)) <==> CountersFit(m, c)
  {
  }

  lemma TreesAfter(trees: map<Path, Tree>, c: Command)
    requires ValidTrees(trees)
    ensures ValidTrees(Trees(trees, c)) <==> (c.PutTree? ==> ValidTree(c.tree))
  {
    if c.PutTree? { assert Trees(trees, c)[c.path] == c.tree; }
  }

  /** From a valid state, a call its own guards accept passes the encode-time check exactly when the
      caller's data is well formed and every time and counter it would write is in range: all of it
      can be told from the call, the clock and the record the call is about. */
  lemma GuardedCallsEncode(world: World, c: Command, env: Env)
    requires WorldOk(world) && FreshIds(world, env) && Mutated(world.state, c, env).Ok?
    ensures ValidState(Mutated(world.state, c, env).value) <==>
            && CallerDataOk(world.state, c)
            && TimesFit(world.state.workspaces, c, env) && CountersFit(world.state.metrics, c)
  {
    ValidStateParts(world.state);
    ValidStateParts(Mutated(world.state, c, env).value);
    RecordsAfter(world.state, c, env);
    CalendarAfter(world.state.workspaces, c, env);
    CountersAfter(world.state.metrics, c);
    TreesAfter(world.state.trees, c);
    FencesAfter(world, c, env);
  }

  // ---------------------------------------------------------------------------------------------
  // Runs keep the world well-formed
  // ---------------------------------------------------------------------------------------------

  /** What an edit may do to the kind of operation a record is fenced with. */
  ghost predicate KindMoves(world: World, w: Workspace, e: Edit, env: Env, w': Workspace) {
    && (w'.operation.Some? ==>
         && (w'.operation.value in world.collections || w'.operation == Some(env.first) <==> w'.lifecycle.Available? || w'.lifecycle.Failed?)
         && (w'.lifecycle.Available? || w'.lifecycle.Failed? ==> w'.processes == []))
    && (w'.operation == Some(env.first) ==> e.BeginCollection?)
    && (e.BeginCollection? ==> (w'.operation == Some(env.first) <==> w'.operation != w.operation))
  }

  lemma PathEditKeepsKind(world: World, w: Workspace, e: Edit, env: Env)
    requires KindOk(world, w) && IdsKnown(world) && FreshIds(world, env) && Edited(w, e, env).Ok? && Sound(w)
    requires w.operation.Some? ==> w.operation.value in world.used
    requires e.CancelCollection? ==> e.operation in world.collections
    requires PathEdit(e)
    ensures KindMoves(world, w, e, env, Edited(w, e, env).value)
  {
  }

  lemma OtherEditKeepsKind(world: World, w: Workspace, e: Edit, env: Env)
    requires KindOk(world, w) && IdsKnown(world) && FreshIds(world, env) && Edited(w, e, env).Ok? && Sound(w)
    requires w.operation.Some? ==> w.operation.value in world.used
    requires e.CancelCollection? ==> e.operation in world.collections
    requires !PathEdit(e)
    ensures KindMoves(world, w, e, env, Edited(w, e, env).value)
  {
  }

  lemma EditKeepsKind(world: World, w: Workspace, e: Edit, env: Env)
    requires KindOk(world, w) && IdsKnown(world) && FreshIds(world, env) && Edited(w, e, env).Ok? && Sound(w)
    requires w.operation.Some? ==> w.operation.value in world.used
    requires e.CancelCollection? ==> e.operation in world.collections
    ensures KindMoves(world, w, e, env, Edited(w, e, env).value)
  {
    if PathEdit(e) { PathEditKeepsKind(world, w, e, env); } else { OtherEditKeepsKind(world, w, e, env); }
  }

  lemma PutIdsKnown(world: World, c: Command, env: Env)
    requires WorldOk(world) && Decide(world.state.workspaces, c, env).Ok? && Decide(world.state.workspaces, c, env).value.Put?
    ensures RecordIdsIn(Decide(world.state.workspaces, c, env).value.workspace, world.used + {env.first, env.second})
  {
    var d := Decide(world.state.workspaces, c, env).value;
    DecisionShape(world.state.workspaces, c, env);
    if !c.BeginPreparation? { EditIdentifiers(world.state.workspaces[d.path], EditOf(c).value, env); }
  }

  lemma IdsAfterStep(world: World, c: Command, env: Env)
    requires WorldOk(world) && FreshIds(world, env)
    ensures IdsKnown(Step(world, c, env))
  {
    var ws' := Step(world, c, env).state.workspaces;
    forall p | p in ws' ensures RecordIdsIn(ws'[p], Step(world, c, env).used) {
      if p in world.state.workspaces && ws'[p] == world.state.workspaces[p] {
        assert RecordIdsIn(world.state.workspaces[p], world.used);
      } else {
        PutIdsKnown(world, c, env);
      }
    }
  }

  lemma OpensExactly(world: World, c: Command, env: Env)
    requires WorldOk(world) && FreshIds(world, env) && Apply(world.state, c, env).Ok?
    ensures OpensCollection(world, c, env) <==>
            && c.At? && c.edit.BeginCollection?
            && Decide(world.state.workspaces, c, env).value.Put?
            && Decide(world.state.workspaces, c, env).value.workspace.operation == Some(env.first)
  {
    if c.At? && c.edit.BeginCollection? {
      var d := Decide(world.state.workspaces, c, env).value;
      DecisionShape(world.state.workspaces, c, env);
      EditIdentifiers(world.state.workspaces[d.path], c.edit, env);
      EditKeepsKindHere(world, d.path, c.edit, env);
    }
  }

  lemma EditKeepsKindHere(world: World, p: Path, e: Edit, env: Env)
    requires WorldOk(world) && FreshIds(world, env) && p in world.state.workspaces
    requires Edited(world.state.workspaces[p], e, env).Ok?
    requires e.CancelCollection? ==> e.operation in world.collections
    ensures KindMoves(world, world.state.workspaces[p], e, env, Edited(world.state.workspaces[p], e, env).value)
  {
    ValidIsSoundInCalendar(world.state.workspaces[p]);
    assert KindOk(world, world.state.workspaces[p]);
    EditKeepsKind(world, world.state.workspaces[p], e, env);
  }

  lemma PutKind(world: World, c: Command, env: Env)
    requires WorldOk(world) && FreshIds(world, env) && Licensed(world, c) && Apply(world.state, c, env).Ok?
    requires Decide(world.state.workspaces, c, env).value.Put?
    ensures KindOk(Step(world, c, env), Decide(world.state.workspaces, c, env).value.workspace)
  {
    DecisionShape(world.state.workspaces, c, env);
    OpensExactly(world, c, env);
    if !c.BeginPreparation? { EditKeepsKindHere(world, Decide(world.state.workspaces, c, env).value.path, EditOf(c).value, env); }
  }

  /** A kept record is of the kind it was: the one identifier that can become a collection is new. */
  lemma KeptKind(world: World, c: Command, env: Env, p: Path)
    requires WorldOk(world) && FreshIds(world, env) && p in world.state.workspaces
    ensures KindOk(Step(world, c, env), world.state.workspaces[p])
  {
    assert KindOk(world, world.state.workspaces[p]);
  }

  lemma KindsAfterStep(world: World, c: Command, env: Env)
    requires WorldOk(world) && FreshIds(world, env) && Licensed(world, c)
    ensures KindsOk(Step(world, c, env))
  {
    var world' := Step(world, c, env);
    forall p | p in world'.state.workspaces ensures KindOk(world', world'.state.workspaces[p]) {
      if p in world.state.workspaces && world'.state.workspaces[p] == world.state.workspaces[p] {
        KeptKind(world, c, env, p);
      } else {
        PutKind(world, c, env);
      }
    }
  }

  lemma StepKeepsWorldOk(world: World, c: Command, env: Env)
    requires WorldOk(world) && FreshIds(world, env) && Licensed(world, c)
    ensures WorldOk(Step(world, c, env))
  {
    IdsAfterStep(world, c, env);
    KindsAfterStep(world, c, env);
  }

  /** From the empty state, whatever the calls, the clock and the interleaving of callers. */
  lemma {:induction false} RunKeepsWorldOk(world: World, events: seq<Event>)
    requires WorldOk(world) && CanRun(world, events)
    ensures WorldOk(Run(world, events))
    decreases events
  {
    if events != [] {
      StepKeepsWorldOk(world, events[0].command, events[0].env);
      RunKeepsWorldOk(Step(world, events[0].command, events[0].env), events[1..]);
    }
  }

  lemma FirstWorldOk()
    ensures WorldOk(FIRST_WORLD)
  {
  }
}
