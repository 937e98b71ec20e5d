/**
 What one lifecycle call does to the one record it is about (internal/lifecycle): the guards in
 the order the code checks them, and the record it writes. `env.now` is the observed clock, which
 may run backward between calls; `env.first` and `env.second` are the identifiers newID returns;
 `env.saturates` says how the platform converts a duration that is too long.
 */
module Transitions {
  import opened Common
  import opened RukState

  datatype Refusal =
    | BadInput
    | NotManaged
    | AlreadyManaged
    | UnknownAssignment
    | WrongLifecycle
    | OperationMismatch
    | AcquisitionInProgress
    | ChangedMeanwhile
    | RenewedMeanwhile
    | ProcessesRemain
    | NotTracked
    | AlreadyTracked
    | KeeperActive
    | KeeperUnknown
    | BadLease
    | PortTaken
    | Unencodable

  datatype Env = Env(now: int, first: Id, second: Id, saturates: bool)

  /** `lease` is the requested duration, or not positive when only `expiresAt` is given. */
  datatype AssignmentInput = AssignmentInput(owner: string, hostname: string, branch: string, expiresAt: int, lease: int)

  /** Which record an installer's process tracking was opened for. */
  datatype InstallerFence = ForAssignment(id: Id) | ForPreparation(operation: Id)

  datatype Edit =
    | FinishPreparation(operation: Id, verdict: Option<string>, retained: Option<Process>)
    | MarkAssigned(operation: Id, input: AssignmentInput)
    | TakeAvailable(input: AssignmentInput)
    | Retain(operation: Id, failure: string, retained: Option<Process>)
    | RecordSuccess(operation: Id, reused: bool)
    | RefreshLease(operation: Id, expectedRenewedAt: int, expectedExpiresAt: int, lease: int)
    | Renew(expiresAt: int, seenRenewedAt: Option<int>)
    | BeginActivity(keeper: Id, nanoseconds: int)
    | RefreshActivity(keeper: Id, validUntil: int)
    | FinishActivity(keeper: Id)
    | AddProcess(record: Process)
    | RemoveProcess(pid: int, startedAt: string)
    | TrackInstaller(fence: InstallerFence, record: Process)
    | UntrackInstaller(fence: InstallerFence, pid: int, startedAt: string)
    | BeginReturn(acquisition: Option<Id>, expiredBy: Option<int>, expectedUpdatedAt: Option<int>)
    | FinishReturn
    | CancelReturn(failure: string)
    | BeginCollection(seenUpdatedAt: int)
    | RemoveUnassigned(lifecycle: Lifecycle, marker: Option<Id>, seenUpdatedAt: int, pid: int, startedAt: string)
    | CancelCollection(operation: Id)
    | PublishPorts(ports: map<string, int>)

  type Outcome = Result<Workspace, Refusal>

  // ---------------------------------------------------------------------------------------------
  // Time
  // ---------------------------------------------------------------------------------------------

  /** The longest duration the runtime's clock arithmetic can hold, in whole milliseconds. */
  const MAX_DURATION := 9_223_372_036_854

  function Later(left: int, right: int): int { if left < right then right else left }

  /** Strictly after `previous`, whatever the clock says. */
  function NextTimestamp(previous: int, observed: int): int { if observed > previous then observed else previous + 1 }

  /** Subtracting two instants saturates at the longest duration. */
  function Elapsed(start: int, end: int): int { if Saturates(start, end) then MAX_DURATION else end - start }

  predicate Saturates(start: int, end: int) { end - start > MAX_DURATION }

  function LifecycleExpiry(now: int, lease: int): Result<int, Refusal> {
    if lease <= 0 || now + lease > MAX_TIME then Err(BadLease) else Ok(now + lease)
  }

  // ---------------------------------------------------------------------------------------------
  // Processes
  // ---------------------------------------------------------------------------------------------

  predicate WellFormedProcess(r: Process) {
    && SafePositive(r.pid)
    && r.startedAt != ""
    && (r.command.Some? ==> r.command.value != [])
    && (r.groupId.Some? ==> SafePositive(r.groupId.value))
    && (r.sessionId.Some? ==> SafePositive(r.sessionId.value))
    && (r.sessionId.Some? <==> r.sessionStartedAt.Some?)
    && (r.sessionStartedAt.Some? ==> r.sessionStartedAt.value != "")
    && (r.terminalId.Some? ==> r.terminalId.value != "" && r.terminalId.value != "??")
  }

  /** The position of the first record with this PID, or the length. */
  function FindPid(processes: seq<Process>, pid: int): (i: nat)
    ensures i <= |processes|
    ensures i < |processes| ==> processes[i].pid == pid
  {
    if processes == [] || processes[0].pid == pid then 0 else 1 + FindPid(processes[1..], pid)
  }

  lemma {:induction false} FindPidIsFirst(processes: seq<Process>, pid: int)
    ensures forall j :: 0 <= j < FindPid(processes, pid) ==> processes[j].pid != pid
  {
    if processes != [] && processes[0].pid != pid { FindPidIsFirst(processes[1..], pid); }
  }

  /** The position of the first record with exactly this identity, or the length. */
  function FindProcess(processes: seq<Process>, pid: int, startedAt: string): (i: nat)
    ensures i <= |processes|
    ensures i < |processes| ==> processes[i].pid == pid && processes[i].startedAt == startedAt
  {
    if processes == [] || (processes[0].pid == pid && processes[0].startedAt == startedAt) then 0
    else 1 + FindProcess(processes[1..], pid, startedAt)
  }

  lemma {:induction false} FindProcessIsFirst(processes: seq<Process>, pid: int, startedAt: string)
    ensures forall j :: 0 <= j < FindProcess(processes, pid, startedAt) ==> !(processes[j].pid == pid && processes[j].startedAt == startedAt)
  {
    if processes != [] && !(processes[0].pid == pid && processes[0].startedAt == startedAt) { FindProcessIsFirst(processes[1..], pid, startedAt); }
  }

  function Without(processes: seq<Process>, i: nat): seq<Process>
    requires i < |processes|
  { processes[..i] + processes[i + 1..] }

  /** An incomplete record is refused; an exact record already present is kept once. */
  function AppendRetained(w: Workspace, retained: Option<Process>): Outcome {
    if retained.None? then Ok(w)
    else
      var r := retained.value;
      if r.pid <= 0 || r.startedAt == "" then Err(BadInput)
      else
        var i := FindPid(w.processes, r.pid);
        if i == |w.processes| then Ok(w.(processes := w.processes + [r]))
        else if w.processes[i].startedAt == r.startedAt then Ok(w)
        else Err(AlreadyTracked)
  }

  // ---------------------------------------------------------------------------------------------
  // Preparation and assignment
  // ---------------------------------------------------------------------------------------------

  function Prepared(path: Path, branch: string, env: Env): Workspace {
    Workspace(path, true, branch, Preparing, Some(env.first), None, [], env.now, env.now, None, None)
  }

  function EditFinishPreparation(w: Workspace, operation: Id, failure: Option<string>, retained: Option<Process>, env: Env): Outcome {
    if failure == Some("") then Err(BadInput)
    else if !w.lifecycle.Preparing? then Err(WrongLifecycle)
    else if w.operation != Some(operation) then Err(OperationMismatch)
    else
      var now := NextTimestamp(w.updatedAt, env.now);
      if failure.None? then
        if w.processes != [] then Err(ProcessesRemain)
        else Ok(w.(operation := None, updatedAt := now, lifecycle := Available, availableAt := Some(now)))
      else
        var kept := AppendRetained(w, retained);
        if kept.Err? then kept
        else Ok(kept.value.(operation := None, updatedAt := now, lifecycle := Failed, failure := failure))
  }

  predicate GoodInput(input: AssignmentInput) { input.owner != "" && input.hostname != "" }

  function Expiry(input: AssignmentInput, now: int): Result<int, Refusal> {
    if input.lease > 0 then LifecycleExpiry(now, input.lease)
    else if input.expiresAt > now then Ok(input.expiresAt)
    else Err(BadLease)
  }

  function Assign(w: Workspace, input: AssignmentInput, env: Env): Outcome {
    var expiry := Expiry(input, env.now);
    if expiry.Err? then Err(expiry.error)
    else Ok(w.(
      lifecycle := Assigned,
      operation := Some(env.second),
      assignment := Some(Assignment(
        env.first, input.owner, input.hostname, env.now, env.now, expiry.value,
        Elapsed(env.now, expiry.value), Saturates(env.now, expiry.value), env.now, [], map[])),
      branch := if input.branch != "" then input.branch else w.branch,
      updatedAt := env.now,
      availableAt := None,
      failure := None))
  }

  function EditMarkAssigned(w: Workspace, operation: Id, input: AssignmentInput, env: Env): Outcome {
    if !GoodInput(input) then Err(BadInput)
    else if !w.lifecycle.Preparing? then Err(WrongLifecycle)
    else if w.operation != Some(operation) then Err(OperationMismatch)
    else Assign(w, input, env)
  }

  predicate Eligible(w: Workspace) { w.lifecycle.Available? && w.operation.None? }

  function EditTakeAvailable(w: Workspace, input: AssignmentInput, env: Env): Outcome {
    if !GoodInput(input) then Err(BadInput)
    else if !Eligible(w) then Err(WrongLifecycle)
    else Assign(w, input, env)
  }

  /** The guard shared by the calls that finish an acquisition. */
  function AcquisitionGuard(w: Workspace, operation: Id): Option<Refusal> {
    if !w.lifecycle.Assigned? then Some(WrongLifecycle)
    else if w.operation != Some(operation) then Some(OperationMismatch)
    else None
  }

  function EditRetain(w: Workspace, operation: Id, failure: string, retained: Option<Process>, env: Env): Outcome {
    var guard := AcquisitionGuard(w, operation);
    if failure == "" then Err(BadInput)
    else if guard.Some? then Err(guard.value)
    else
      var kept := AppendRetained(w, retained);
      if kept.Err? then kept
      else Ok(kept.value.(operation := None, updatedAt := NextTimestamp(w.updatedAt, env.now), failure := Some(failure)))
  }

  function EditRecordSuccess(w: Workspace, operation: Id, env: Env): Outcome {
    var guard := AcquisitionGuard(w, operation);
    if guard.Some? then Err(guard.value) else Ok(w.(operation := None, updatedAt := env.now))
  }

  function WithLease(w: Workspace, a: Assignment, renewedAt: int, expiresAt: int, lease: int, saturated: bool): Workspace {
    w.(
      assignment := Some(a.(renewedAt := renewedAt, expiresAt := expiresAt, lease := lease, saturated := saturated, lastActivityAt := renewedAt)),
      updatedAt := renewedAt)
  }

  /** Restarts the lease clock, unless someone renewed since the assignment was published. */
  function EditRefreshLease(w: Workspace, operation: Id, expectedRenewedAt: int, expectedExpiresAt: int, lease: int, env: Env): Outcome {
    var guard := AcquisitionGuard(w, operation);
    if lease <= 0 then Err(BadLease)
    else if guard.Some? then Err(guard.value)
    else if w.assignment.None? then Err(UnknownAssignment)
    else
      var a := w.assignment.value;
      if a.renewedAt != expectedRenewedAt || a.expiresAt != expectedExpiresAt then Ok(w)
      else
        var now := Later(env.now, a.renewedAt + 1);
        var expiry := LifecycleExpiry(now, lease);
        if expiry.Err? then Err(expiry.error) else Ok(WithLease(w, a, now, expiry.value, lease, false))
  }

  // ---------------------------------------------------------------------------------------------
  // Renewal and activity
  // ---------------------------------------------------------------------------------------------

  function EditRenew(w: Workspace, expiresAt: int, expectedRenewedAt: Option<int>, env: Env): Outcome {
    if w.assignment.None? then Err(UnknownAssignment)
    else if !w.lifecycle.Assigned? then Err(WrongLifecycle)
    else
      var a := w.assignment.value;
      if expectedRenewedAt.Some? && a.renewedAt != expectedRenewedAt.value then Ok(w)
      else
        var renewedAt := Later(env.now, a.renewedAt + 1);
        if expiresAt <= renewedAt then Err(BadLease)
        else Ok(WithLease(w, a, renewedAt, expiresAt, Elapsed(renewedAt, expiresAt), Saturates(renewedAt, expiresAt)))
  }

  /** Observed activity moves the lease forward by its own length. A saturated length has to be converted
      back to a duration it just does not fit: a platform either saturates again, or gets a time in the
      past, which the encode-time check refuses. */
  function RecordActivity(w: Workspace, a: Assignment, at: int, saturates: bool): Outcome {
    if a.lease <= 0 || a.lease > MAX_DURATION then Err(BadLease)
    else if a.saturated && !saturates then Err(Unencodable)
    else Ok(WithLease(w, a, at, at + a.lease, a.lease, a.saturated))
  }

  function ActiveKeepers(keepers: seq<Keeper>, at: int, retained: Option<Id>): seq<Keeper> {
    if keepers == [] then []
    else
      var rest := ActiveKeepers(keepers[1..], at, retained);
      if Some(keepers[0].id) == retained || keepers[0].validUntil > at then [keepers[0]] + rest else rest
  }

  lemma {:induction false} ActiveKeepersAre(keepers: seq<Keeper>, at: int, retained: Option<Id>)
    ensures forall k :: k in ActiveKeepers(keepers, at, retained) <==> k in keepers && (Some(k.id) == retained || k.validUntil > at)
  {
    if keepers != [] { ActiveKeepersAre(keepers[1..], at, retained); }
  }

  predicate HasKeeper(keepers: seq<Keeper>, id: Id) { exists k :: k in keepers && k.id == id }

  function EditBeginActivity(w: Workspace, keeper: Id, nanoseconds: int, env: Env): Outcome {
    if nanoseconds <= 0 then Err(BadInput)
    else if w.assignment.None? then Err(UnknownAssignment)
    else if !w.lifecycle.Assigned? then Err(WrongLifecycle)
    else
      var a := w.assignment.value;
      if HasKeeper(a.keepers, keeper) then Err(KeeperActive)
      else
        var now := Later(env.now, a.renewedAt);
        var added := Keeper(keeper, now, now + nanoseconds / 1_000_000);
        RecordActivity(w, a.(keepers := ActiveKeepers(a.keepers, now, None) + [added]), now, env.saturates)
  }

  function Beaten(keepers: seq<Keeper>, id: Id, at: int, validUntil: int): seq<Keeper> {
    if keepers == [] then []
    else [if keepers[0].id == id then Keeper(id, at, Later(keepers[0].validUntil, validUntil)) else keepers[0]]
         + Beaten(keepers[1..], id, at, validUntil)
  }

  lemma {:induction false} BeatenAre(keepers: seq<Keeper>, id: Id, at: int, validUntil: int)
    ensures |Beaten(keepers, id, at, validUntil)| == |keepers|
    ensures forall i :: 0 <= i < |keepers| ==>
      Beaten(keepers, id, at, validUntil)[i] == if keepers[i].id == id then Keeper(id, at, Later(keepers[i].validUntil, validUntil)) else keepers[i]
  {
    if keepers != [] { BeatenAre(keepers[1..], id, at, validUntil); }
  }

  /** The keepers after one beat: its own keeper moved forward, lapsed ones dropped. */
  function RefreshedKeepers(keepers: seq<Keeper>, keeper: Id, now: int, duration: int): seq<Keeper> {
    ActiveKeepers(Beaten(keepers, keeper, now, now + duration), now, Some(keeper))
  }

  function EditRefreshActivity(w: Workspace, keeper: Id, validUntil: int, env: Env): Outcome {
    if w.assignment.None? then Err(UnknownAssignment)
    else if !w.lifecycle.Assigned? then Err(WrongLifecycle)
    else if validUntil <= env.now then Err(BadInput)
    else
      var a := w.assignment.value;
      if !HasKeeper(a.keepers, keeper) then Err(KeeperUnknown)
      else
        var now := Later(env.now, a.renewedAt);
        RecordActivity(w, a.(keepers := RefreshedKeepers(a.keepers, keeper, now, validUntil - env.now)), now, env.saturates)
  }

  function OtherKeepers(keepers: seq<Keeper>, id: Id, at: int): seq<Keeper> {
    if keepers == [] then []
    else
      var rest := OtherKeepers(keepers[1..], id, at);
      if keepers[0].id != id && keepers[0].validUntil > at then [keepers[0]] + rest else rest
  }

  lemma {:induction false} OtherKeepersAre(keepers: seq<Keeper>, id: Id, at: int)
    ensures forall k :: k in OtherKeepers(keepers, id, at) <==> k in keepers && k.id != id && k.validUntil > at
  {
    if keepers != [] { OtherKeepersAre(keepers[1..], id, at); }
  }

  function EditFinishActivity(w: Workspace, keeper: Id, env: Env): Outcome {
    if w.assignment.None? then Err(UnknownAssignment)
    else if !w.lifecycle.Assigned? then Err(WrongLifecycle)
    else
      var a := w.assignment.value;
      if !HasKeeper(a.keepers, keeper) then Err(KeeperUnknown)
      else
        var now := Later(env.now, a.renewedAt);
        RecordActivity(w, a.(keepers := OtherKeepers(a.keepers, keeper, now)), now, env.saturates)
  }

  // ---------------------------------------------------------------------------------------------
  // Tracked processes
  // ---------------------------------------------------------------------------------------------

  function EditAddProcess(w: Workspace, record: Process, env: Env): Outcome {
    if !WellFormedProcess(record) then Err(BadInput)
    else if !w.lifecycle.Assigned? then Err(WrongLifecycle)
    else if FindPid(w.processes, record.pid) < |w.processes| then Err(AlreadyTracked)
    else Ok(w.(processes := w.processes + [record], updatedAt := env.now))
  }

  function Untracked(w: Workspace, pid: int, startedAt: string, now: int): Outcome {
    var i := FindProcess(w.processes, pid, startedAt);
    if i == |w.processes| then Err(NotTracked)
    else Ok(w.(processes := Without(w.processes, i), updatedAt := now))
  }

  function EditRemoveProcess(w: Workspace, pid: int, startedAt: string, env: Env): Outcome {
    if !w.Owned() then Err(WrongLifecycle) else Untracked(w, pid, startedAt, env.now)
  }

  predicate FenceHolds(w: Workspace, fence: InstallerFence) {
    match fence
    case ForAssignment(id) => w.lifecycle.Assigned? && w.Carries(id)
    case ForPreparation(operation) => w.lifecycle.Preparing? && w.operation == Some(operation)
  }

  function EditTrackInstaller(w: Workspace, fence: InstallerFence, record: Process, env: Env): Outcome {
    if !FenceHolds(w, fence) then Err(ChangedMeanwhile)
    else
      var i := FindPid(w.processes, record.pid);
      if i == |w.processes| then
        Ok(w.(processes := w.processes + [record], updatedAt := NextTimestamp(w.updatedAt, env.now)))
      else if w.processes[i].startedAt == record.startedAt then Ok(w)
      else Err(AlreadyTracked)
  }

  function EditUntrackInstaller(w: Workspace, fence: InstallerFence, pid: int, startedAt: string, env: Env): Outcome {
    if !FenceHolds(w, fence) then Err(ChangedMeanwhile)
    else Untracked(w, pid, startedAt, NextTimestamp(w.updatedAt, env.now))
  }

  // ---------------------------------------------------------------------------------------------
  // Return
  // ---------------------------------------------------------------------------------------------

  function EditBeginReturn(w: Workspace, acquisition: Option<Id>, expiredBy: Option<int>, expectedUpdatedAt: Option<int>, env: Env): Outcome {
    if w.assignment.None? then Err(UnknownAssignment)
    else if w.lifecycle.Returning? then Ok(w)
    else if !w.lifecycle.Assigned? then Err(WrongLifecycle)
    else if w.operation.Some? && acquisition != w.operation then Err(AcquisitionInProgress)
    else if w.operation.None? && acquisition.Some? then Err(OperationMismatch)
    else if expectedUpdatedAt.Some? && w.updatedAt != expectedUpdatedAt.value then Err(ChangedMeanwhile)
    else if expiredBy.Some? && w.assignment.value.expiresAt > expiredBy.value then Err(RenewedMeanwhile)
    else Ok(w.(lifecycle := Returning, failure := None, updatedAt := env.now))
  }

  function EditFinishReturn(w: Workspace, env: Env): Outcome {
    if !w.lifecycle.Returning? then Err(WrongLifecycle)
    else if w.processes != [] then Err(ProcessesRemain)
    else Ok(w.(lifecycle := Available, operation := None, assignment := None,
               updatedAt := env.now, availableAt := Some(env.now), failure := None))
  }

  /** Restores ownership with the acquisition marker, if any, intact. */
  function EditCancelReturn(w: Workspace, failure: string, env: Env): Outcome {
    if failure == "" then Err(BadInput)
    else if !w.lifecycle.Returning? then Err(WrongLifecycle)
    else Ok(w.(lifecycle := Assigned, updatedAt := env.now, availableAt := None, failure := Some(failure)))
  }

  // ---------------------------------------------------------------------------------------------
  // Collection
  // ---------------------------------------------------------------------------------------------

  const ABANDONED_PREPARATION := "Workspace preparation was abandoned"

  function EditBeginCollection(w: Workspace, expectedUpdatedAt: int, env: Env): Outcome {
    if !w.lifecycle.Preparing? && !w.lifecycle.Available? && !w.lifecycle.Failed? then Err(WrongLifecycle)
    else if w.updatedAt != expectedUpdatedAt then Err(ChangedMeanwhile)
    else if w.processes != [] then Err(ProcessesRemain)
    else if !w.lifecycle.Preparing? && w.operation.Some? then Ok(w)
    else
      var fenced := w.(operation := Some(env.first), updatedAt := env.now);
      Ok(if w.lifecycle.Preparing? then fenced.(lifecycle := Failed, failure := Some(ABANDONED_PREPARATION)) else fenced)
  }

  function EditRemoveUnassigned(w: Workspace, lifecycle: Lifecycle, operation: Option<Id>, expectedUpdatedAt: int, pid: int, startedAt: string, env: Env): Outcome {
    if !lifecycle.Preparing? && !lifecycle.Failed? then Err(BadInput)
    else if w.lifecycle != lifecycle then Err(ChangedMeanwhile)
    else if w.assignment.Some? then Err(WrongLifecycle)
    else if w.updatedAt != expectedUpdatedAt then Err(ChangedMeanwhile)
    else if w.operation != operation then Err(ChangedMeanwhile)
    else Untracked(w, pid, startedAt, env.now)
  }

  /** Checks nothing but the operation. */
  function EditCancelCollection(w: Workspace, operation: Id, env: Env): Outcome {
    if w.operation != Some(operation) then Err(OperationMismatch)
    else
      var cleared := w.(operation := None, updatedAt := env.now);
      Ok(if w.lifecycle.Available? then cleared.(availableAt := Some(env.now)) else cleared)
  }

  predicate Deletable(w: Workspace, operation: Id) {
    && (w.lifecycle.Available? || w.lifecycle.Failed?)
    && w.assignment.None? && w.processes == []
    && w.operation == Some(operation)
  }

  /** Replaces the whole named-port map. */
  function EditPublishPorts(w: Workspace, ports: map<string, int>): Outcome {
    if !w.lifecycle.Assigned? then Err(WrongLifecycle)
    else if w.assignment.None? then Err(UnknownAssignment)
    else Ok(w.(assignment := Some(w.assignment.value.(ports := ports))))
  }

  function Edited(w: Workspace, e: Edit, env: Env): Outcome {
    match e
    case FinishPreparation(operation, verdict, retained) => EditFinishPreparation(w, operation, verdict, retained, env)
    case MarkAssigned(operation, input) => EditMarkAssigned(w, operation, input, env)
    case TakeAvailable(input) => EditTakeAvailable(w, input, env)
    case Retain(operation, failure, retained) => EditRetain(w, operation, failure, retained, env)
    case RecordSuccess(operation, reused) => EditRecordSuccess(w, operation, env)
    case RefreshLease(operation, renewed, expires, lease) => EditRefreshLease(w, operation, renewed, expires, lease, env)
    case Renew(expiresAt, expected) => EditRenew(w, expiresAt, expected, env)
    case BeginActivity(keeper, nanoseconds) => EditBeginActivity(w, keeper, nanoseconds, env)
    case RefreshActivity(keeper, validUntil) => EditRefreshActivity(w, keeper, validUntil, env)
    case FinishActivity(keeper) => EditFinishActivity(w, keeper, env)
    case AddProcess(record) => EditAddProcess(w, record, env)
    case RemoveProcess(pid, startedAt) => EditRemoveProcess(w, pid, startedAt, env)
    case TrackInstaller(fence, record) => EditTrackInstaller(w, fence, record, env)
    case UntrackInstaller(fence, pid, startedAt) => EditUntrackInstaller(w, fence, pid, startedAt, env)
    case BeginReturn(acquisition, expiredBy, expected) => EditBeginReturn(w, acquisition, expiredBy, expected, env)
    case FinishReturn => EditFinishReturn(w, env)
    case CancelReturn(failure) => EditCancelReturn(w, failure, env)
    case BeginCollection(expected) => EditBeginCollection(w, expected, env)
    case RemoveUnassigned(lifecycle, operation, expected, pid, startedAt) =>
      EditRemoveUnassigned(w, lifecycle, operation, expected, pid, startedAt, env)
    case CancelCollection(operation) => EditCancelCollection(w, operation, env)
    case PublishPorts(ports) => EditPublishPorts(w, ports)
  }
}
