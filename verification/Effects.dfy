/**
 The lifecycle calls in their callers' terms (internal/lifecycle): on which valid record each of them is
 accepted, and what of the record it finds, of the call and of the clock ends up in the record it writes.
 Every field of a record is told for every call, so nothing is written that nobody asked for.
 */
module Effects {
  import opened Common
  import opened RukState
  import opened Transitions
  import opened Fences
  import L = Lifecycle

  // ---------------------------------------------------------------------------------------------
  // When a call is accepted
  // ---------------------------------------------------------------------------------------------

  predicate EndsLater(input: AssignmentInput, now: int) {
    if input.lease > 0 then now + input.lease <= MAX_TIME else input.expiresAt > now
  }

  predicate Named(input: AssignmentInput) { input.owner != "" && input.hostname != "" }

  predicate Tracks(w: Workspace, pid: int, startedAt: string) {
    exists p :: p in w.processes && p.pid == pid && p.startedAt == startedAt
  }

  /** Nobody else is tracked under its PID. */
  predicate Hands(w: Workspace, r: Process) {
    forall p :: p in w.processes && p.pid == r.pid ==> p.startedAt == r.startedAt
  }

  predicate HandsComplete(w: Workspace, r: Option<Process>) {
    r.Some? ==> r.value.pid > 0 && r.value.startedAt != "" && Hands(w, r.value)
  }

  /** An activity moves the lease by its own length, if the platform can hold it. */
  predicate LeaseMoves(w: Workspace, env: Env) {
    w.assignment.Some? && w.assignment.value.lease <= MAX_DURATION && (w.assignment.value.saturated ==> env.saturates)
  }

  predicate Keeps(w: Workspace, keeper: Id) {
    w.assignment.Some? && exists k :: k in w.assignment.value.keepers && k.id == keeper
  }

  predicate AcceptsPreparation(w: Workspace, e: Edit, env: Env) {
    match e
    case FinishPreparation(o, None, _) => w.lifecycle.Preparing? && w.operation == Some(o) && w.processes == []
    case FinishPreparation(o, Some(failure), r) =>
      w.lifecycle.Preparing? && w.operation == Some(o) && failure != "" && HandsComplete(w, r)
    case MarkAssigned(o, input) => w.lifecycle.Preparing? && w.operation == Some(o) && Named(input) && EndsLater(input, env.now)
    case TakeAvailable(input) => w.lifecycle.Available? && w.operation == None && Named(input) && EndsLater(input, env.now)
    case _ => false
  }

  predicate AcceptsAcquisition(w: Workspace, e: Edit, env: Env) {
    match e
    case Retain(o, failure, r) => w.lifecycle.Assigned? && w.operation == Some(o) && failure != "" && HandsComplete(w, r)
    case RecordSuccess(o, _) => w.lifecycle.Assigned? && w.operation == Some(o)
    case RefreshLease(o, renewed, expires, lease) =>
      && w.lifecycle.Assigned? && w.operation == Some(o) && w.assignment.Some? && lease > 0
      && (w.assignment.value.renewedAt == renewed && w.assignment.value.expiresAt == expires ==>
            env.now + lease <= MAX_TIME && renewed + 1 + lease <= MAX_TIME)
    case _ => false
  }

  predicate AcceptsRenewal(w: Workspace, e: Edit, env: Env) {
    match e
    case Renew(end, seen) =>
      && w.lifecycle.Assigned? && w.assignment.Some?
      && (seen.None? || seen.value == w.assignment.value.renewedAt ==> end > env.now && end > w.assignment.value.renewedAt + 1)
    case BeginActivity(keeper, nanoseconds) => w.lifecycle.Assigned? && nanoseconds > 0 && !Keeps(w, keeper) && LeaseMoves(w, env)
    case RefreshActivity(keeper, validUntil) => w.lifecycle.Assigned? && validUntil > env.now && Keeps(w, keeper) && LeaseMoves(w, env)
    case FinishActivity(keeper) => w.lifecycle.Assigned? && Keeps(w, keeper) && LeaseMoves(w, env)
    case PublishPorts(_) => w.lifecycle.Assigned?
    case _ => false
  }

  predicate Opened(w: Workspace, fence: InstallerFence) {
    match fence
    case ForAssignment(id) => w.lifecycle.Assigned? && w.assignment.Some? && w.assignment.value.id == id
    case ForPreparation(o) => w.lifecycle.Preparing? && w.operation == Some(o)
  }

  predicate AcceptsTracking(w: Workspace, e: Edit) {
    match e
    case AddProcess(r) =>
      && w.lifecycle.Assigned? && ValidProcess(r) && (r.sessionStartedAt.Some? ==> r.sessionId.Some?)
      && (forall p :: p in w.processes ==> p.pid != r.pid)
    case RemoveProcess(pid, startedAt) => (w.lifecycle.Assigned? || w.lifecycle.Returning?) && Tracks(w, pid, startedAt)
    case TrackInstaller(fence, r) => Opened(w, fence) && Hands(w, r)
    case UntrackInstaller(fence, pid, startedAt) => Opened(w, fence) && Tracks(w, pid, startedAt)
    case RemoveUnassigned(lifecycle, marker, seen, pid, startedAt) =>
      && (lifecycle.Preparing? || lifecycle.Failed?) && w.lifecycle == lifecycle
      && w.operation == marker && w.updatedAt == seen && Tracks(w, pid, startedAt)
    case _ => false
  }

  predicate AcceptsReturn(w: Workspace, e: Edit) {
    match e
    case BeginReturn(acquisition, expiredBy, seen) =>
      || w.lifecycle.Returning?
      || (&& w.lifecycle.Assigned? && w.assignment.Some? && w.operation == acquisition
          && (seen.Some? ==> w.updatedAt == seen.value)
          && (expiredBy.Some? ==> w.assignment.value.expiresAt <= expiredBy.value))
    case FinishReturn => w.lifecycle.Returning? && w.processes == []
    case CancelReturn(failure) => w.lifecycle.Returning? && failure != ""
    case BeginCollection(seen) => w.assignment == None && w.updatedAt == seen && w.processes == []
    case CancelCollection(o) => w.operation == Some(o)
    case _ => false
  }

  /** The fences a call carries, and the state it expects, told field by field. */
  predicate Accepts(w: Workspace, e: Edit, env: Env) {
    AcceptsPreparation(w, e, env) || AcceptsAcquisition(w, e, env) || AcceptsRenewal(w, e, env) || AcceptsTracking(w, e) || AcceptsReturn(w, e)
  }

  predicate IsPreparation(e: Edit) { e.FinishPreparation? || e.MarkAssigned? || e.TakeAvailable? }

  predicate IsAcquisition(e: Edit) { e.Retain? || e.RecordSuccess? || e.RefreshLease? }

  predicate IsRenewal(e: Edit) { e.Renew? || e.BeginActivity? || e.RefreshActivity? || e.FinishActivity? || e.PublishPorts? }

  predicate IsTracking(e: Edit) {
    e.AddProcess? || e.RemoveProcess? || e.TrackInstaller? || e.UntrackInstaller? || e.RemoveUnassigned?
  }

  lemma HandedOver(w: Workspace, r: Process)
    requires DistinctPids(w.processes)
    ensures var i := FindPid(w.processes, r.pid); Hands(w, r) <==> (i == |w.processes| || w.processes[i].startedAt == r.startedAt)
    ensures FindPid(w.processes, r.pid) == |w.processes| <==> forall p :: p in w.processes ==> p.pid != r.pid
  {
    FindPidIsFirst(w.processes, r.pid);
  }

  lemma Tracked(w: Workspace, pid: int, startedAt: string)
    ensures Tracks(w, pid, startedAt) <==> FindProcess(w.processes, pid, startedAt) < |w.processes|
  {
    FindProcessIsFirst(w.processes, pid, startedAt);
  }

  lemma PreparationAccepted(w: Workspace, e: Edit, env: Env)
    requires ValidWorkspace(w) && (IsPreparation(e) || IsAcquisition(e))
    ensures Edited(w, e, env).Ok? <==> AcceptsPreparation(w, e, env) || AcceptsAcquisition(w, e, env)
  {
    if (e.FinishPreparation? || e.Retain?) && e.retained.Some? { HandedOver(w, e.retained.value); }
  }

  lemma RenewalAccepted(w: Workspace, e: Edit, env: Env)
    requires ValidWorkspace(w) && IsRenewal(e)
    ensures Edited(w, e, env).Ok? <==> AcceptsRenewal(w, e, env)
  {
  }

  lemma TrackingAccepted(w: Workspace, e: Edit, env: Env)
    requires ValidWorkspace(w) && IsTracking(e)
    ensures Edited(w, e, env).Ok? <==> AcceptsTracking(w, e)
  {
    if e.AddProcess? || e.TrackInstaller? { HandedOver(w, e.record); } else { Tracked(w, e.pid, e.startedAt); }
  }

  lemma ReturnAccepted(w: Workspace, e: Edit, env: Env)
    requires ValidWorkspace(w) && !IsPreparation(e) && !IsAcquisition(e) && !IsRenewal(e) && !IsTracking(e)
    ensures Edited(w, e, env).Ok? <==> AcceptsReturn(w, e)
  {
  }

  /** A call is accepted on a valid record exactly when it carries what the record is fenced with, has seen
      what the record says, and asks for something that can be. */
  lemma AcceptedExactlyWhen(w: Workspace, e: Edit, env: Env)
    requires ValidWorkspace(w)
    ensures Edited(w, e, env).Ok? <==> Accepts(w, e, env)
  {
    if IsPreparation(e) || IsAcquisition(e) {
      PreparationAccepted(w, e, env);
    } else if IsRenewal(e) {
      RenewalAccepted(w, e, env);
    } else if IsTracking(e) {
      TrackingAccepted(w, e, env);
    } else {
      ReturnAccepted(w, e, env);
    }
  }

  // ---------------------------------------------------------------------------------------------
  // Who holds it
  // ---------------------------------------------------------------------------------------------

  function InputOf(e: Edit): AssignmentInput
    requires Publishes(e)
  {
    e.input
  }

  /** Handing out a workspace writes what was asked for: whose it is, from where, since when, until when,
      and on which branch. Nothing of the record's history changes. */
  lemma HandingOutWritesTheInput(w: Workspace, e: Edit, env: Env)
    requires Publishes(e) && Edited(w, e, env).Ok?
    ensures var input, w' := InputOf(e), Edited(w, e, env).value;
            && w'.lifecycle.Assigned? && w'.operation == Some(env.second) && w'.assignment.Some?
            && var a := w'.assignment.value;
               && a.id == env.first && a.owner == input.owner && a.hostname == input.hostname
               && a.assignedAt == a.renewedAt == a.lastActivityAt == w'.updatedAt == env.now
               && a.expiresAt == (if input.lease > 0 then env.now + input.lease else input.expiresAt)
               && (a.lease == a.expiresAt - env.now <==> !a.saturated)
               && (a.saturated ==> a.lease == 9_223_372_036_854 && a.expiresAt - env.now > 9_223_372_036_854)
               && a.keepers == [] && a.ports == map[]
    ensures var input, w' := InputOf(e), Edited(w, e, env).value;
            && w'.branch == (if input.branch == "" then w.branch else input.branch)
            && w'.path == w.path && w'.managed == w.managed && w'.createdAt == w.createdAt && w'.processes == w.processes
            && w'.availableAt == None && w'.failure == None
  {
  }

  /** A preparation begun and finished, on whatever clocks, is a spare workspace on the branch asked for, as
      old as its beginning, and spare from a moment after it. */
  lemma PreparationMakesASpare(p: Path, branch: string, begin: Env, end: Env)
    ensures var done := Edited(Prepared(p, branch, begin), FinishPreparation(begin.first, None, None), end);
            && done.Ok? && done.value.availableAt.Some?
            && done.value.availableAt.value == (if end.now > begin.now then end.now else begin.now + 1)
            && done.value == Workspace(p, true, branch, Available, None, None, [], begin.now, done.value.availableAt.value, done.value.availableAt, None)
  {
  }

  predicate SameTenure(a: Assignment, b: Assignment) {
    a.id == b.id && a.owner == b.owner && a.hostname == b.hostname && a.assignedAt == b.assignedAt
  }

  /** No other call changes who holds a workspace, from where, or since when; only the end of a return
      takes it from them. */
  lemma TenureLasts(w: Workspace, e: Edit, env: Env)
    requires ValidWorkspace(w) && !Publishes(e) && Edited(w, e, env).Ok?
    ensures var w' := Edited(w, e, env).value;
            if w.assignment.None? || e.FinishReturn? then w'.assignment == None
            else w'.assignment.Some? && SameTenure(w.assignment.value, w'.assignment.value)
    ensures var w' := Edited(w, e, env).value;
            w'.path == w.path && w'.managed == w.managed && w'.createdAt == w.createdAt && w'.branch == w.branch
  {
  }

  // ---------------------------------------------------------------------------------------------
  // Where it stands
  // ---------------------------------------------------------------------------------------------

  predicate SamePlace(w: Workspace, w': Workspace) {
    w'.lifecycle == w.lifecycle && w'.operation == w.operation && w'.failure == w.failure && w'.availableAt == w.availableAt
  }

  predicate Stands(w': Workspace, lifecycle: RukState.Lifecycle, operation: Option<Id>, failure: Option<string>) {
    && w'.lifecycle == lifecycle && w'.operation == operation && w'.failure == failure
    && (lifecycle.Available? ==> w'.availableAt == Some(w'.updatedAt))
    && (!lifecycle.Available? ==> w'.availableAt == None)
  }

  /** Where each call leaves the workspace, its fence, and the reason it keeps for a failure. */
  predicate PlaceAfter(w: Workspace, e: Edit, env: Env, w': Workspace) {
    match e
    case FinishPreparation(_, None, _) => Stands(w', Available, None, None)
    case FinishPreparation(_, Some(failure), _) => Stands(w', Failed, None, Some(failure))
    case MarkAssigned(_, _) => Stands(w', Assigned, Some(env.second), None)
    case TakeAvailable(_) => Stands(w', Assigned, Some(env.second), None)
    case Retain(_, failure, _) => Stands(w', Assigned, None, Some(failure))
    case RecordSuccess(_, _) => Stands(w', Assigned, None, w.failure)
    case BeginReturn(_, _, _) => Stands(w', Returning, w.operation, None)
    case FinishReturn => Stands(w', Available, None, None)
    case CancelReturn(failure) => Stands(w', Assigned, w.operation, Some(failure))
    case BeginCollection(_) =>
      if w.lifecycle.Preparing? then Stands(w', Failed, Some(env.first), Some(ABANDONED_PREPARATION))
      else SamePlace(w.(operation := if w.operation.Some? then w.operation else Some(env.first)), w')
    case CancelCollection(_) =>
      if w.lifecycle.Available? then Stands(w', Available, None, None) else SamePlace(w.(operation := None), w')
    case _ => SamePlace(w, w')
  }

  lemma PlaceIsAsAsked(w: Workspace, e: Edit, env: Env)
    requires ValidWorkspace(w) && Edited(w, e, env).Ok?
    ensures PlaceAfter(w, e, env, Edited(w, e, env).value)
  {
  }

  // ---------------------------------------------------------------------------------------------
  // What it tracks
  // ---------------------------------------------------------------------------------------------

  ghost predicate TakesOut(before: seq<Process>, after: seq<Process>, pid: int, startedAt: string) {
    exists i :: 0 <= i < |before| && before[i].pid == pid && before[i].startedAt == startedAt && after == before[..i] + before[i + 1..]
  }

  predicate TakesIn(before: seq<Process>, after: seq<Process>, r: Process) {
    if exists p :: p in before && p.pid == r.pid then after == before else after == before + [r]
  }

  /** A record taken in comes last, unless that very process is tracked; one taken out leaves the others
      in place and in order; no other call touches them. */
  ghost predicate ProcessesAfter(w: Workspace, e: Edit, w': Workspace) {
    match e
    case FinishPreparation(_, Some(_), Some(r)) => TakesIn(w.processes, w'.processes, r)
    case Retain(_, _, Some(r)) => TakesIn(w.processes, w'.processes, r)
    case TrackInstaller(_, r) => TakesIn(w.processes, w'.processes, r)
    case AddProcess(r) => w'.processes == w.processes + [r]
    case RemoveProcess(pid, startedAt) => TakesOut(w.processes, w'.processes, pid, startedAt)
    case UntrackInstaller(_, pid, startedAt) => TakesOut(w.processes, w'.processes, pid, startedAt)
    case RemoveUnassigned(_, _, _, pid, startedAt) => TakesOut(w.processes, w'.processes, pid, startedAt)
    case _ => w'.processes == w.processes
  }

  lemma ProcessesAreAsAsked(w: Workspace, e: Edit, env: Env)
    requires ValidWorkspace(w) && Edited(w, e, env).Ok?
    ensures ProcessesAfter(w, e, Edited(w, e, env).value)
  {
    match e
    case FinishPreparation(_, Some(_), Some(r)) => HandedOver(w, r);
    case Retain(_, _, Some(r)) => HandedOver(w, r);
    case TrackInstaller(_, r) => HandedOver(w, r);
    case RemoveProcess(pid, startedAt) => assert TakesOut(w.processes, Edited(w, e, env).value.processes, pid, startedAt);
    case UntrackInstaller(_, pid, startedAt) => assert TakesOut(w.processes, Edited(w, e, env).value.processes, pid, startedAt);
    case RemoveUnassigned(_, _, _, pid, startedAt) => assert TakesOut(w.processes, Edited(w, e, env).value.processes, pid, startedAt);
    case _ =>
  }

  // ---------------------------------------------------------------------------------------------
  // Its keepers and ports
  // ---------------------------------------------------------------------------------------------

  /** Which keepers stand after a call that leaves the assignment; `at` is when its lease was renewed. */
  predicate KeeperAfter(a: Assignment, e: Edit, env: Env, at: int, k: Keeper) {
    match e
    case BeginActivity(keeper, nanoseconds) =>
      (k in a.keepers && k.validUntil > at) || k == Keeper(keeper, at, at + nanoseconds / 1_000_000)
    case RefreshActivity(keeper, validUntil) =>
      || (k in a.keepers && k.id != keeper && k.validUntil > at)
      || (exists own :: own in a.keepers && own.id == keeper && k == Keeper(keeper, at, Later(own.validUntil, at + (validUntil - env.now))))
    case FinishActivity(keeper) => k in a.keepers && k.id != keeper && k.validUntil > at
    case _ => k in a.keepers
  }

  lemma RefreshedAre(keepers: seq<Keeper>, keeper: Id, at: int, duration: int, k: Keeper)
    ensures k in RefreshedKeepers(keepers, keeper, at, duration) <==>
              || (k in keepers && k.id != keeper && k.validUntil > at)
              || (exists own :: own in keepers && own.id == keeper && k == Keeper(keeper, at, Later(own.validUntil, at + duration)))
  {
    var beaten := Beaten(keepers, keeper, at, at + duration);
    BeatenAre(keepers, keeper, at, at + duration);
    ActiveKeepersAre(beaten, at, Some(keeper));
    if k in beaten {
      var i :| 0 <= i < |beaten| && beaten[i] == k;
      assert keepers[i] in keepers;
    }
    if k in keepers && k.id != keeper {
      var i :| 0 <= i < |keepers| && keepers[i] == k;
      assert beaten[i] == k;
    }
    forall own | own in keepers && own.id == keeper ensures Keeper(keeper, at, Later(own.validUntil, at + duration)) in beaten {
      var i :| 0 <= i < |keepers| && keepers[i] == own;
      assert beaten[i] == Keeper(keeper, at, Later(own.validUntil, at + duration));
    }
  }

  lemma RefreshLeavesKeepers(w: Workspace, e: Edit, env: Env, b: Assignment)
    requires w.assignment.Some? && e.RefreshActivity? && Edited(w, e, env).Ok? && Edited(w, e, env).value.assignment == Some(b)
    ensures forall k :: k in b.keepers <==> KeeperAfter(w.assignment.value, e, env, b.renewedAt, k)
  {
    forall k ensures k in b.keepers <==> KeeperAfter(w.assignment.value, e, env, b.renewedAt, k) {
      RefreshedAre(w.assignment.value.keepers, e.keeper, b.renewedAt, e.validUntil - env.now, k);
    }
  }

  /** Ports come from publication alone, all of them at once. */
  lemma PortsAreAsAsked(w: Workspace, e: Edit, env: Env)
    requires ValidWorkspace(w) && w.assignment.Some? && !Publishes(e) && !e.FinishReturn? && Edited(w, e, env).Ok?
    ensures var w' := Edited(w, e, env).value;
            w'.assignment.Some? && w'.assignment.value.ports == (if e.PublishPorts? then e.ports else w.assignment.value.ports)
  {
  }

  /** Keepers come from heartbeats alone, each with the time it was given, and leave when they are taken
      down or have lapsed by then. */
  lemma KeepersAreAsAsked(w: Workspace, e: Edit, env: Env)
    requires ValidWorkspace(w) && w.assignment.Some? && !Publishes(e) && !e.FinishReturn? && Edited(w, e, env).Ok?
    ensures var w' := Edited(w, e, env).value;
            && w'.assignment.Some?
            && forall k :: k in w'.assignment.value.keepers <==> KeeperAfter(w.assignment.value, e, env, w'.assignment.value.renewedAt, k)
  {
    var a, b := w.assignment.value, Edited(w, e, env).value.assignment.value;
    if e.BeginActivity? {
      ActiveKeepersAre(a.keepers, b.renewedAt, None);
    } else if e.RefreshActivity? {
      RefreshLeavesKeepers(w, e, env, b);
    } else if e.FinishActivity? {
      OtherKeepersAre(a.keepers, e.keeper, b.renewedAt);
    } else {
      assert b.keepers == a.keepers;
    }
  }

  // ---------------------------------------------------------------------------------------------
  // When it was last changed
  // ---------------------------------------------------------------------------------------------

  /** A call that finds nothing left to do. */
  predicate Skips(w: Workspace, e: Edit) {
    match e
    case RefreshLease(_, renewed, expires, _) =>
      w.assignment.Some? && (w.assignment.value.renewedAt != renewed || w.assignment.value.expiresAt != expires)
    case Renew(_, seen) => w.assignment.Some? && seen.Some? && w.assignment.value.renewedAt != seen.value
    case TrackInstaller(_, r) => exists p :: p in w.processes && p.pid == r.pid
    case BeginReturn(_, _, _) => w.lifecycle.Returning?
    case BeginCollection(_) => !w.lifecycle.Preparing? && w.operation.Some?
    case _ => false
  }

  /** A record carries the observed clock of the call that wrote it, except that an installer's tracking
      and the end of a preparation or of a failed acquisition never go back, nor does a lease. */
  lemma ChangesAreDated(w: Workspace, e: Edit, env: Env)
    requires ValidWorkspace(w) && Edited(w, e, env).Ok?
    ensures Skips(w, e) ==> Edited(w, e, env).value == w
    ensures !Skips(w, e) && !e.PublishPorts? ==>
              var w' := Edited(w, e, env).value;
              if e.FinishPreparation? || e.Retain? || e.TrackInstaller? || e.UntrackInstaller? then
                w'.updatedAt == (if env.now > w.updatedAt then env.now else w.updatedAt + 1)
              else if e.RefreshLease? || IsRenewal(e) then w'.assignment.Some? && w'.updatedAt == w'.assignment.value.renewedAt == w'.assignment.value.lastActivityAt
              else w'.updatedAt == env.now
    ensures e.PublishPorts? ==> Edited(w, e, env).value.updatedAt == w.updatedAt
  {
    if e.TrackInstaller? { HandedOver(w, e.record); }
  }

  // ---------------------------------------------------------------------------------------------
  // When a call goes through
  // ---------------------------------------------------------------------------------------------

  /** From any state a run can reach, a call addressed by path goes through exactly when its record is
      there and takes it, the caller's data is well formed, and every time it writes is in range. */
  lemma PathCallGoesThroughExactlyWhen(world: L.World, p: Path, e: Edit, env: Env)
    requires WorldOk(world) && L.FreshIds(world, env) && L.PathEdit(e)
    ensures L.Apply(world.state, L.At(p, e), env).Ok? <==>
              && p in world.state.workspaces && Accepts(world.state.workspaces[p], e, env)
              && CallerDataOk(world.state, L.At(p, e)) && TimesFit(world.state.workspaces, L.At(p, e), env)
  {
    if p in world.state.workspaces {
      AcceptedExactlyWhen(world.state.workspaces[p], e, env);
      if Edited(world.state.workspaces[p], e, env).Ok? { GuardedCallsEncode(world, L.At(p, e), env); }
    }
  }

  /** A call addressed by assignment, exactly when some record carries the identifier and all of that. */
  lemma AssignmentCallGoesThroughExactlyWhen(world: L.World, id: Id, p: Path, e: Edit, env: Env)
    requires WorldOk(world) && L.FreshIds(world, env) && L.AssignmentEdit(e) && !e.PublishPorts?
    requires L.Holder(world.state.workspaces, id) == Some(p)
    ensures L.Apply(world.state, L.For(id, e), env).Ok? <==>
              && Accepts(world.state.workspaces[p], e, env)
              && CallerDataOk(world.state, L.For(id, e)) && TimesFit(world.state.workspaces, L.For(id, e), env)
              && CountersFit(world.state.metrics, L.For(id, e))
  {
    AcceptedExactlyWhen(world.state.workspaces[p], e, env);
    if Edited(world.state.workspaces[p], e, env).Ok? { GuardedCallsEncode(world, L.For(id, e), env); }
  }
}
