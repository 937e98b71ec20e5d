/**
 The loops of internal/state/decode.go: one pass over the document, with the sets of identifiers
 already seen, decides exactly the predicates of RukState.
 */
module Decode {
  import opened Common
  import opened RukState

  method CheckProcess(process: Process) returns (ok: bool)
    ensures ok <==> ValidProcess(process)
  {
    if process.pid <= 0 || process.pid > 9_007_199_254_740_991 || process.startedAt == "" { return false; }
    if process.groupId.Some? && (process.groupId.value <= 0 || process.groupId.value > 9_007_199_254_740_991) { return false; }
    if process.sessionId.Some? {
      if process.sessionId.value <= 0 || process.sessionId.value > 9_007_199_254_740_991 { return false; }
      if process.sessionStartedAt.None? || process.sessionStartedAt.value == "" { return false; }
    }
    if process.sessionStartedAt.Some? && process.sessionStartedAt.value == "" { return false; }
    if process.terminalId.Some? && (process.terminalId.value == "" || process.terminalId.value == "??") { return false; }
    if process.command.Some? && process.command.value == [] { return false; }
    ok := true;
  }

  method CheckProcesses(processes: seq<Process>) returns (ok: bool)
    ensures ok <==> ValidProcesses(processes)
  {
    var seen: set<int> := {};
    var i := 0;
    while i < |processes|
      invariant 0 <= i <= |processes|
      invariant ValidProcesses(processes[..i])
      invariant forall pid :: pid in seen <==> exists j :: 0 <= j < i && processes[j].pid == pid
    {
      var process := processes[i];
      assert process in processes;
      var valid := CheckProcess(process);
      if !valid { return false; }
      if process.pid in seen {
        assert !DistinctPids(processes);
        return false;
      }
      assert processes[..i + 1] == processes[..i] + [process];
      seen := seen + {process.pid};
      i := i + 1;
    }
    assert processes[..i] == processes;
    ok := true;
  }

  method CheckKeepers(keepers: seq<Keeper>) returns (ok: bool)
    ensures ok <==> (forall k :: k in keepers ==> ValidKeeper(k)) && DistinctKeepers(keepers)
  {
    var seen: set<Id> := {};
    var i := 0;
    while i < |keepers|
      invariant 0 <= i <= |keepers|
      invariant forall j :: 0 <= j < i ==> ValidKeeper(keepers[j])
      invariant DistinctKeepers(keepers[..i])
      invariant forall id :: id in seen <==> exists j :: 0 <= j < i && keepers[j].id == id
    {
      var keeper := keepers[i];
      assert keeper in keepers;
      if !ValidTimestamp(keeper.heartbeatAt) || !ValidTimestamp(keeper.validUntil) || keeper.heartbeatAt >= keeper.validUntil { return false; }
      if keeper.id in seen {
        assert !DistinctKeepers(keepers);
        return false;
      }
      assert keepers[..i + 1] == keepers[..i] + [keeper];
      seen := seen + {keeper.id};
      i := i + 1;
    }
    assert keepers[..i] == keepers;
    ok := true;
  }

  method CheckPorts(ports: map<string, int>) returns (ok: bool)
    ensures ok <==> forall name :: name in ports ==> ValidPort(name, ports[name])
  {
    var todo := ports.Keys;
    while todo != {}
      invariant todo <= ports.Keys
      invariant forall name :: name in ports && name !in todo ==> ValidPort(name, ports[name])
    {
      var name :| name in todo;
      if name == "" || ports[name] < 1 || ports[name] > 65_535 { return false; }
      todo := todo - {name};
    }
    ok := true;
  }

  method CheckAssignment(a: Assignment) returns (ok: bool)
    ensures ok <==> ValidAssignment(a)
  {
    if a.owner == "" || a.hostname == "" || !ValidTimestamp(a.assignedAt) || !ValidTimestamp(a.renewedAt)
       || !ValidTimestamp(a.expiresAt) || !ValidTimestamp(a.lastActivityAt) {
      return false;
    }
    if a.assignedAt > a.renewedAt || a.renewedAt >= a.expiresAt || a.assignedAt > a.lastActivityAt || a.lastActivityAt >= a.expiresAt {
      return false;
    }
    if a.lease <= 0 { return false; }
    var keepers := CheckKeepers(a.keepers);
    if !keepers { return false; }
    ok := CheckPorts(a.ports);
  }

  method CheckWorkspace(w: Workspace) returns (ok: bool)
    ensures ok <==> ValidWorkspace(w)
  {
    if !w.managed || w.branch == "" || !ValidTimestamp(w.createdAt) || !ValidTimestamp(w.updatedAt) { return false; }
    if w.lifecycle.Preparing? && w.operation.None? { return false; }
    if w.Owned() != w.assignment.Some? { return false; }
    if w.assignment.Some? {
      var assignment := CheckAssignment(w.assignment.value);
      if !assignment { return false; }
    }
    if w.lifecycle.Available? {
      if w.availableAt.None? || !ValidTimestamp(w.availableAt.value) { return false; }
    } else if w.availableAt.Some? {
      return false;
    }
    if w.lifecycle.Failed? {
      if w.failure.None? || w.failure.value == "" { return false; }
    } else if w.lifecycle.Assigned? {
      if w.failure.Some? && w.failure.value == "" { return false; }
    } else if w.failure.Some? {
      return false;
    }
    if !w.Owned() && !w.lifecycle.Preparing? && !w.lifecycle.Failed? && w.processes != [] { return false; }
    ok := CheckProcesses(w.processes);
  }

  // ---------------------------------------------------------------------------------------------
  // Fences across records
  // ---------------------------------------------------------------------------------------------

  function Restricted(ws: map<Path, Workspace>, todo: set<Path>): map<Path, Workspace> { ws - todo }

  ghost predicate Seen(ws: map<Path, Workspace>, todo: set<Path>, operations: set<Id>, assignments: set<Id>, ports: set<int>) {
    && (forall o :: o in operations <==> exists p :: p in ws && p !in todo && ws[p].operation == Some(o))
    && (forall id :: id in assignments <==> exists p :: p in ws && p !in todo && ws[p].Carries(id))
    && (forall port :: port in ports <==> exists p, name :: p in ws && p !in todo && UsesPort(ws[p], name, port))
  }

  /** Adds the ports of one record to those seen before it. */
  method AddPorts(w: Workspace, before: set<int>) returns (ok: bool, ports: set<int>)
    requires w.assignment.Some?
    ensures ok <==>
              && (forall name, port :: UsesPort(w, name, port) ==> port !in before)
              && (forall name, other, port :: UsesPort(w, name, port) && UsesPort(w, other, port) ==> name == other)
    ensures ok ==> forall port :: port in ports <==> port in before || exists name :: UsesPort(w, name, port)
  {
    var own := w.assignment.value.ports;
    var todo := own.Keys;
    ports := before;
    while todo != {}
      invariant todo <= own.Keys
      invariant forall port :: port in ports <==> port in before || exists name :: name !in todo && UsesPort(w, name, port)
      invariant forall name, port :: name !in todo && UsesPort(w, name, port) ==> port !in before
      invariant forall name, other, port :: name !in todo && other !in todo && UsesPort(w, name, port) && UsesPort(w, other, port) ==> name == other
    {
      var name :| name in todo;
      assert UsesPort(w, name, own[name]);
      if own[name] in ports { return false, ports; }
      ports := ports + {own[name]};
      todo := todo - {name};
    }
    ok := true;
  }

  /** A repeated operation, assignment or port shows as soon as its second record is reached. */
  lemma RepeatsShow(ws: map<Path, Workspace>, todo: set<Path>, operations: set<Id>, assignments: set<Id>, ports: set<int>, p: Path)
    requires Seen(ws, todo, operations, assignments, ports) && p in ws && p in todo
    ensures ws[p].operation.Some? && ws[p].operation.value in operations ==> !DistinctOperations(ws)
    ensures ws[p].assignment.Some? && ws[p].assignment.value.id in assignments ==> !DistinctAssignments(ws)
    ensures forall name, port :: UsesPort(ws[p], name, port) && port in ports ==> !DistinctPorts(ws)
  {
    if ws[p].operation.Some? && ws[p].operation.value in operations {
      var q :| q in ws && q !in todo && ws[q].operation == ws[p].operation;
      assert SameOperation(ws[p], ws[q]);
    }
    if ws[p].assignment.Some? && ws[p].assignment.value.id in assignments {
      var q :| q in ws && q !in todo && ws[q].Carries(ws[p].assignment.value.id);
      assert SameAssignment(ws[p], ws[q]);
    }
  }

  lemma FencesGrow(ws: map<Path, Workspace>, todo: set<Path>, operations: set<Id>, assignments: set<Id>, ports: set<int>, p: Path)
    requires Seen(ws, todo, operations, assignments, ports) && p in ws && p in todo && GlobalFences(Restricted(ws, todo))
    requires ws[p].operation.Some? ==> ws[p].operation.value !in operations
    requires ws[p].assignment.Some? ==> ws[p].assignment.value.id !in assignments
    requires forall name, port :: UsesPort(ws[p], name, port) ==> port !in ports
    requires forall name, other, port :: UsesPort(ws[p], name, port) && UsesPort(ws[p], other, port) ==> name == other
    ensures GlobalFences(Restricted(ws, todo - {p}))
  {
    var before, after := Restricted(ws, todo), Restricted(ws, todo - {p});
    forall q, r | q in after && r in after && SameOperation(after[q], after[r]) ensures q == r {
      if q != p && r != p { assert SameOperation(before[q], before[r]); }
    }
    forall q, r | q in after && r in after && SameAssignment(after[q], after[r]) ensures q == r {
      if q != p && r != p { assert SameAssignment(before[q], before[r]); }
    }
    forall q, r, name, other, port | q in after && r in after && UsesPort(after[q], name, port) && UsesPort(after[r], other, port)
      ensures q == r && name == other
    {
      if q != p && r != p { assert UsesPort(before[q], name, port) && UsesPort(before[r], other, port); }
    }
  }

  method CheckGlobalFences(ws: map<Path, Workspace>) returns (ok: bool)
    ensures ok <==> GlobalFences(ws)
  {
    var operations: set<Id>, assignments: set<Id>, ports: set<int> := {}, {}, {};
    var todo := ws.Keys;
    while todo != {}
      invariant todo <= ws.Keys
      invariant GlobalFences(Restricted(ws, todo))
      invariant Seen(ws, todo, operations, assignments, ports)
    {
      var p :| p in todo;
      var w := ws[p];
      ghost var olds := (operations, assignments, ports);
      RepeatsShow(ws, todo, operations, assignments, ports, p);
      if w.operation.Some? {
        if w.operation.value in operations { return false; }
        operations := operations + {w.operation.value};
      }
      if w.assignment.Some? {
        if w.assignment.value.id in assignments { return false; }
        assignments := assignments + {w.assignment.value.id};
        var before := ports;
        var unused;
        unused, ports := AddPorts(w, before);
        if !unused { return false; }
      }
      FencesGrow(ws, todo, olds.0, olds.1, olds.2, p);
      todo := todo - {p};
    }
    assert Restricted(ws, todo) == ws;
    ok := true;
  }

  /** Sixty-four lower-case hexadecimal digits. */
  method CheckDigest(text: string) returns (ok: bool)
    ensures ok <==> IsDigest(text)
  {
    if |text| != 64 { return false; }
    for i := 0 to |text|
      invariant forall j :: 0 <= j < i ==> IsHexDigit(text[j])
    {
      if !('0' <= text[i] <= '9') && !('a' <= text[i] <= 'f') { return false; }
    }
    ok := true;
  }

  method CheckMetrics(m: Metrics) returns (ok: bool)
    ensures ok <==> ValidMetrics(m)
  {
    var counters := [m.acquisitions, m.reuses, m.preparations, m.skips, m.failures, m.totalMs];
    for i := 0 to |counters|
      invariant forall j :: 0 <= j < i ==> ValidCounter(counters[j])
    {
      if counters[i] < 0 || counters[i] > 9_007_199_254_740_991 {
        assert !ValidCounter(counters[i]);
        return false;
      }
    }
    assert ValidCounter(counters[0]) && ValidCounter(counters[1]) && ValidCounter(counters[2]);
    assert ValidCounter(counters[3]) && ValidCounter(counters[4]) && ValidCounter(counters[5]);
    ok := m.lastMs.None? || (m.lastMs.value >= 0 && m.lastMs.value <= 9_007_199_254_740_991);
  }

  method CheckTrees(trees: map<Path, Tree>) returns (ok: bool)
    ensures ok <==> ValidTrees(trees)
  {
    var todo := trees.Keys;
    while todo != {}
      invariant todo <= trees.Keys
      invariant forall p :: p in trees && p !in todo ==> ValidTree(trees[p])
    {
      var p :| p in todo;
      if trees[p].projections.None? { return false; }
      if trees[p].projectionFingerprint != "" {
        var digest := CheckDigest(trees[p].projectionFingerprint);
        if !digest { return false; }
      }
      todo := todo - {p};
    }
    ok := true;
  }

  /** What Decode accepts, and so what the encode-time check of every update accepts. */
  method CheckState(s: State) returns (ok: bool)
    ensures ok <==> ValidState(s)
  {
    var trees := CheckTrees(s.trees);
    if !trees { return false; }
    var metrics := CheckMetrics(s.metrics);
    if !metrics { return false; }
    var todo := s.workspaces.Keys;
    while todo != {}
      invariant todo <= s.workspaces.Keys
      invariant forall p :: p in s.workspaces && p !in todo ==> s.workspaces[p].path == p && ValidWorkspace(s.workspaces[p])
    {
      var p :| p in todo;
      if s.workspaces[p].path != p { return false; }
      var valid := CheckWorkspace(s.workspaces[p]);
      if !valid { return false; }
      todo := todo - {p};
    }
    ok := CheckGlobalFences(s.workspaces);
  }
}
