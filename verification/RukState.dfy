/**
 The durable repository state (internal/state/types.go) and the checks every stored document
 passes (internal/state/decode.go).

 Timestamps are integer milliseconds; a canonical timestamp string exists exactly for the years
 0 to 9999. Identifiers are opaque, leases are whole milliseconds, and encoding is the identity.
 A workspace record is stored under its own path.
 */
module RukState {
  import opened Common

  type Id = nat

  /** Paths are absolute and cleaned before they reach the state. */
  type Path = p: string | IsAbsolute(p) witness "/"

  predicate IsAbsolute(p: string) { p != "" && p[0] == '/' }

  const MIN_TIME := -62_167_219_200_000
  const MAX_TIME := 253_402_300_799_999
  const MAX_SAFE_INTEGER := 9_007_199_254_740_991

  datatype Lifecycle = Available | Preparing | Assigned | Returning | Failed

  datatype Process = Process(
    pid: int,
    startedAt: string,
    groupId: Option<int>,
    sessionId: Option<int>,
    sessionStartedAt: Option<string>,
    terminalId: Option<string>,
    command: Option<seq<string>>)

  datatype Keeper = Keeper(id: Id, heartbeatAt: int, validUntil: int)

  /** A length too long for the clock arithmetic is recorded as the longest one, which is not a whole number
      of milliseconds: `saturated` tells it from the whole part of it, asked for as such. */
  datatype Assignment = Assignment(
    id: Id,
    owner: string,
    hostname: string,
    assignedAt: int,
    renewedAt: int,
    expiresAt: int,
    lease: int,
    saturated: bool,
    lastActivityAt: int,
    keepers: seq<Keeper>,
    ports: map<string, int>)

  datatype Workspace = Workspace(
    path: Path,
    managed: bool,
    branch: string,
    lifecycle: Lifecycle,
    operation: Option<Id>,
    assignment: Option<Assignment>,
    processes: seq<Process>,
    createdAt: int,
    updatedAt: int,
    availableAt: Option<int>,
    failure: Option<string>)
  {
    predicate Carries(id: Id) { assignment.Some? && assignment.value.id == id }

    predicate Owned() { lifecycle.Assigned? || lifecycle.Returning? }
  }

  datatype Metrics = Metrics(
    acquisitions: int,
    reuses: int,
    preparations: int,
    skips: int,
    failures: int,
    totalMs: int,
    lastMs: Option<int>)

  /** Without a projection fingerprint the field is left out of the document; projections that were
      never set are written as null. */
  datatype Tree = Tree(
    path: Path,
    fingerprint: string,
    projectionFingerprint: string,
    mode: string,
    projections: Option<seq<string>>,
    branch: string,
    updatedAt: string)

  datatype State = State(trees: map<Path, Tree>, workspaces: map<Path, Workspace>, metrics: Metrics)

  const EMPTY_STATE := State(map[], map[], Metrics(0, 0, 0, 0, 0, 0, None))

  // ---------------------------------------------------------------------------------------------
  // One record
  // ---------------------------------------------------------------------------------------------

  predicate ValidTimestamp(t: int) { MIN_TIME <= t <= MAX_TIME }

  predicate SafePositive(n: int) { 0 < n <= MAX_SAFE_INTEGER }

  predicate ValidProcess(p: Process) {
    && SafePositive(p.pid)
    && p.startedAt != ""
    && (p.groupId.Some? ==> SafePositive(p.groupId.value))
    && (p.sessionId.Some? ==> SafePositive(p.sessionId.value) && p.sessionStartedAt.Some? && p.sessionStartedAt.value != "")
    && (p.sessionStartedAt.Some? ==> p.sessionStartedAt.value != "")
    && (p.terminalId.Some? ==> p.terminalId.value != "" && p.terminalId.value != "??")
    && (p.command.Some? ==> p.command.value != [])
  }

  ghost predicate DistinctPids(processes: seq<Process>) {
    forall i, j :: 0 <= i < j < |processes| ==> processes[i].pid != processes[j].pid
  }

  ghost predicate ValidProcesses(processes: seq<Process>) {
    (forall p :: p in processes ==> ValidProcess(p)) && DistinctPids(processes)
  }

  ghost predicate DistinctKeepers(keepers: seq<Keeper>) {
    forall i, j :: 0 <= i < j < |keepers| ==> keepers[i].id != keepers[j].id
  }

  predicate ValidKeeper(k: Keeper) {
    ValidTimestamp(k.heartbeatAt) && ValidTimestamp(k.validUntil) && k.heartbeatAt < k.validUntil
  }

  predicate ValidPort(name: string, port: int) { name != "" && 1 <= port <= 65_535 }

  ghost predicate ValidAssignment(a: Assignment) {
    && ValidTimestamp(a.assignedAt) && ValidTimestamp(a.renewedAt)
    && ValidTimestamp(a.expiresAt) && ValidTimestamp(a.lastActivityAt)
    && a.owner != "" && a.hostname != ""
    && a.assignedAt <= a.renewedAt < a.expiresAt
    && a.assignedAt <= a.lastActivityAt < a.expiresAt
    && a.lease > 0
    && (forall k :: k in a.keepers ==> ValidKeeper(k)) && DistinctKeepers(a.keepers)
    && (forall name :: name in a.ports ==> ValidPort(name, a.ports[name]))
  }

  ghost predicate ValidWorkspace(w: Workspace) {
    && w.managed && w.branch != ""
    && ValidTimestamp(w.createdAt) && ValidTimestamp(w.updatedAt)
    && (w.lifecycle.Preparing? ==> w.operation.Some?)
    && (w.Owned() <==> w.assignment.Some?)
    && (w.assignment.Some? ==> ValidAssignment(w.assignment.value))
    && (w.lifecycle.Available? <==> w.availableAt.Some?)
    && (w.availableAt.Some? ==> ValidTimestamp(w.availableAt.value))
    && ValidFailure(w)
    && (w.lifecycle.Available? ==> w.processes == [])
    && ValidProcesses(w.processes)
  }

  predicate ValidFailure(w: Workspace) {
    match w.lifecycle
    case Failed => w.failure.Some? && w.failure.value != ""
    case Assigned => w.failure.Some? ==> w.failure.value != ""
    case _ => w.failure == None
  }

  predicate ValidCounter(n: int) { 0 <= n <= MAX_SAFE_INTEGER }

  predicate ValidMetrics(m: Metrics) {
    && ValidCounter(m.acquisitions) && ValidCounter(m.reuses) && ValidCounter(m.preparations)
    && ValidCounter(m.skips) && ValidCounter(m.failures) && ValidCounter(m.totalMs)
    && (m.lastMs.Some? ==> ValidCounter(m.lastMs.value))
  }

  // ---------------------------------------------------------------------------------------------
  // The whole document
  // ---------------------------------------------------------------------------------------------

  predicate SameOperation(v: Workspace, w: Workspace) { v.operation.Some? && v.operation == w.operation }

  predicate SameAssignment(v: Workspace, w: Workspace) {
    v.assignment.Some? && w.assignment.Some? && v.assignment.value.id == w.assignment.value.id
  }

  predicate UsesPort(w: Workspace, name: string, port: int) {
    w.assignment.Some? && name in w.assignment.value.ports && w.assignment.value.ports[name] == port
  }

  ghost predicate DistinctOperations(ws: map<Path, Workspace>) {
    forall p, q :: p in ws && q in ws && SameOperation(ws[p], ws[q]) ==> p == q
  }

  ghost predicate DistinctAssignments(ws: map<Path, Workspace>) {
    forall p, q :: p in ws && q in ws && SameAssignment(ws[p], ws[q]) ==> p == q
  }

  ghost predicate DistinctPorts(ws: map<Path, Workspace>) {
    forall p, q, name, other, port :: p in ws && q in ws && UsesPort(ws[p], name, port) && UsesPort(ws[q], other, port) ==>
      p == q && name == other
  }

  ghost predicate GlobalFences(ws: map<Path, Workspace>) {
    DistinctOperations(ws) && DistinctAssignments(ws) && DistinctPorts(ws)
  }

  predicate IsHexDigit(c: char) { '0' <= c <= '9' || 'a' <= c <= 'f' }

  predicate IsDigest(text: string) { |text| == 64 && forall i :: 0 <= i < |text| ==> IsHexDigit(text[i]) }

  predicate ValidTree(tree: Tree) {
    tree.projections.Some? && (tree.projectionFingerprint != "" ==> IsDigest(tree.projectionFingerprint))
  }

  ghost predicate ValidTrees(trees: map<Path, Tree>) { forall p :: p in trees ==> ValidTree(trees[p]) }

  ghost predicate ValidState(s: State) {
    && ValidTrees(s.trees) && ValidMetrics(s.metrics)
    && (forall p :: p in s.workspaces ==> s.workspaces[p].path == p && ValidWorkspace(s.workspaces[p]))
    && GlobalFences(s.workspaces)
  }
}
