/**
 Every Store.Update transition of internal/lifecycle (and the ones of internal/dependencies/ensure.go
 and internal/ports/allocation.go) as a function on the whole state, and the runs made of them.
 */
module Lifecycle {
  import opened Common
  import opened RukState
  import opened Transitions
  import opened Validity
  import Text

  datatype MetricKind = PreparedKind | SkippedKind | FailedKind

  /** Path-addressed calls go through `At`, assignment-addressed calls through `For`. */
  datatype Command =
    | BeginPreparation(path: Path, branch: string)
    | At(path: Path, edit: Edit)
    | For(id: Id, edit: Edit)
    | Reserve(requested: Option<Path>, input: AssignmentInput)
    | DeleteRecord(path: Path, operation: Id)
    | RecordMetric(kind: MetricKind, milliseconds: int)
    | PutTree(path: Path, tree: Tree)
    | DropTree(path: Path)

  predicate PathEdit(e: Edit) {
    e.FinishPreparation? || e.MarkAssigned? || e.TrackInstaller? || e.UntrackInstaller? ||
    e.BeginCollection? || e.RemoveUnassigned? || e.CancelCollection?
  }

  predicate AssignmentEdit(e: Edit) { !PathEdit(e) && !e.TakeAvailable? }

  // ---------------------------------------------------------------------------------------------
  // Which record a call is about
  // ---------------------------------------------------------------------------------------------

  /** The record carrying an assignment, if any. */
  ghost function Holder(ws: map<Path, Workspace>, id: Id): (p: Option<Path>)
    ensures p.Some? ==> p.value in ws && ws[p.value].Carries(id)
    ensures p.None? ==> forall q :: q in ws ==> !ws[q].Carries(id)
  {
    if exists p :: p in ws && ws[p].Carries(id) then
      var p :| p in ws && ws[p].Carries(id);
      Some(p)
    else None
  }

  predicate Wanted(ws: map<Path, Workspace>, requested: Option<Path>, p: Path) {
    p in ws && Eligible(ws[p]) && (requested.Some? ==> p == requested.value)
  }

  function AvailableSince(w: Workspace): int { if w.availableAt.Some? then w.availableAt.value else MIN_TIME - 1 }

  /** Oldest first, then by path. */
  predicate NotAfter(ws: map<Path, Workspace>, p: Path, q: Path)
    requires p in ws && q in ws
  {
    || AvailableSince(ws[p]) < AvailableSince(ws[q])
    || (AvailableSince(ws[p]) == AvailableSince(ws[q]) && Text.AtMost(p, q))
  }

  ghost predicate Oldest(ws: map<Path, Workspace>, requested: Option<Path>, p: Path) {
    Wanted(ws, requested, p) && forall q :: Wanted(ws, requested, q) ==> NotAfter(ws, p, q)
  }

  // ---------------------------------------------------------------------------------------------
  // What a call does
  // ---------------------------------------------------------------------------------------------

  datatype Decision = Keep | Put(path: Path, workspace: Workspace) | Drop(path: Path)

  function OnRecord(ws: map<Path, Workspace>, p: Path, e: Edit, env: Env): Result<Decision, Refusal>
    requires p in ws
  {
    var edited := Edited(ws[p], e, env);
    if edited.Ok? then Ok(Put(p, edited.value)) else Err(edited.error)
  }

  ghost predicate PortFree(ws: map<Path, Workspace>, port: int) {
    forall p, name :: p in ws ==> !UsesPort(ws[p], name, port)
  }

  /** New ports must be new to every managed record, and to each other. */
  ghost predicate PortsFree(ws: map<Path, Workspace>, ports: map<string, int>) {
    && (forall name :: name in ports ==> PortFree(ws, ports[name]))
    && (forall a, b :: a in ports && b in ports && ports[a] == ports[b] ==> a == b)
  }

  ghost function Decide(ws: map<Path, Workspace>, c: Command, env: Env): Result<Decision, Refusal> {
    match c
    case BeginPreparation(p, branch) =>
      if branch == "" then Err(BadInput)
      else if p in ws then Err(AlreadyManaged)
      else Ok(Put(p, Prepared(p, branch, env)))
    case At(p, e) =>
      if !PathEdit(e) then Err(BadInput)
      else if p !in ws then Err(NotManaged)
      else OnRecord(ws, p, e, env)
    case For(id, e) =>
      var p := Holder(ws, id);
      if !AssignmentEdit(e) then Err(BadInput)
      else if p.None? then Err(UnknownAssignment)
      else if e.PublishPorts? && !PortsFree(ws, e.ports) then Err(PortTaken)
      else OnRecord(ws, p.value, e, env)
    case Reserve(requested, input) =>
      if !GoodInput(input) then Err(BadInput)
      else if exists p :: Oldest(ws, requested, p) then
        var p :| Oldest(ws, requested, p);
        OnRecord(ws, p, TakeAvailable(input), env)
      else Ok(Keep)
    case DeleteRecord(p, operation) =>
      if p !in ws then Err(NotManaged)
      else if ws[p].Owned() || ws[p].lifecycle.Preparing? then Err(WrongLifecycle)
      else if ws[p].assignment.Some? || ws[p].processes != [] then Err(ProcessesRemain)
      else if ws[p].operation != Some(operation) then Err(OperationMismatch)
      else Ok(Drop(p))
    case RecordMetric(_, _) => Ok(Keep)
    case PutTree(_, _) => Ok(Keep)
    case DropTree(_) => Ok(Keep)
  }

  function Perform(ws: map<Path, Workspace>, d: Decision): map<Path, Workspace> {
    match d
    case Keep => ws
    case Put(p, w) => ws[p := w]
    case Drop(p) => ws - {p}
  }

  function Count(m: Metrics, c: Command): Metrics {
    match c
    case For(_, RecordSuccess(_, reused)) =>
      m.(acquisitions := m.acquisitions + 1, reuses := m.reuses + if reused then 1 else 0)
    case RecordMetric(kind, milliseconds) =>
      var spent := if milliseconds < 0 then 0 else milliseconds;
      var counted := m.(lastMs := Some(spent));
      (match kind
       case PreparedKind => counted.(preparations := m.preparations + 1, totalMs := m.totalMs + spent)
       case SkippedKind => counted.(skips := m.skips + 1)
       case FailedKind => counted.(failures := m.failures + 1))
    case _ => m
  }

  function Trees(trees: map<Path, Tree>, c: Command): map<Path, Tree> {
    match c
    case PutTree(p, tree) => trees[p := tree]
    case DropTree(p) => trees - {p}
    case _ => trees
  }

  /** The mutation alone, before the document is validated. */
  ghost function Mutated(s: State, c: Command, env: Env): Result<State, Refusal> {
    var d := Decide(s.workspaces, c, env);
    if d.Err? then Err(d.error)
    else Ok(State(Trees(s.trees, c), Perform(s.workspaces, d.value), Count(s.metrics, c)))
  }

  /** One Store.Update: mutate, validate, and only then replace the document. */
  ghost function Apply(s: State, c: Command, env: Env): Result<State, Refusal> {
    var next := Mutated(s, c, env);
    if next.Ok? && !ValidState(next.value) then Err(Unencodable) else next
  }

  // ---------------------------------------------------------------------------------------------
  // Runs
  // ---------------------------------------------------------------------------------------------

  /** `used` are the identifiers drawn so far and `collections` the operations opened by
      BeginWorkspaceCollection: both history, kept by no code. */
  datatype World = World(state: State, used: set<Id>, collections: set<Id>)

  ghost predicate FreshIds(world: World, env: Env) {
    env.first !in world.used && env.second !in world.used && env.first != env.second
  }

  ghost predicate OpensCollection(world: World, c: Command, env: Env) {
    c.At? && c.edit.BeginCollection? && Apply(world.state, c, env).Ok? &&
    c.path in world.state.workspaces && world.state.workspaces[c.path].operation !=
      Apply(world.state, c, env).value.workspaces[c.path].operation
  }

  ghost function Step(world: World, c: Command, env: Env): World {
    var next := Apply(world.state, c, env);
    World(
      if next.Ok? then next.value else world.state,
      world.used + {env.first, env.second},
      world.collections + if OpensCollection(world, c, env) then {env.first} else {})
  }

  /** Collection calls are given only operations that a collection opened. */
  ghost predicate Licensed(world: World, c: Command) {
    c.At? && c.edit.CancelCollection? ==> c.edit.operation in world.collections
  }

  datatype Event = Event(command: Command, env: Env)

  ghost predicate CanRun(world: World, events: seq<Event>)
    decreases events
  {
    events != [] ==>
      && FreshIds(world, events[0].env) && Licensed(world, events[0].command)
      && CanRun(Step(world, events[0].command, events[0].env), events[1..])
  }

  ghost function Run(world: World, events: seq<Event>): World
    decreases events
  {
    if events == [] then world else Run(Step(world, events[0].command, events[0].env), events[1..])
  }

  const FIRST_WORLD := World(EMPTY_STATE, {}, {})
}
