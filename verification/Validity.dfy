/**
 The encode-time check (internal/state/decode.go) against the lifecycle calls: everything it checks
 except the calendar range is kept by every guarded call, and where a caller can break it, exactly
 when is said.
 */
module Validity {
  import opened Common
  import opened RukState
  import opened Transitions

  // ---------------------------------------------------------------------------------------------
  // Validity is soundness plus representable timestamps
  // ---------------------------------------------------------------------------------------------

  ghost predicate SoundAssignment(a: Assignment) {
    && a.owner != "" && a.hostname != ""
    && a.assignedAt <= a.renewedAt < a.expiresAt
    && a.assignedAt <= a.lastActivityAt < a.expiresAt
    && a.lease > 0
    && (forall k :: k in a.keepers ==> k.heartbeatAt < k.validUntil) && DistinctKeepers(a.keepers)
    && (forall name :: name in a.ports ==> ValidPort(name, a.ports[name]))
  }

  ghost predicate Sound(w: Workspace) {
    && w.managed && w.branch != ""
    && (w.lifecycle.Preparing? ==> w.operation.Some?)
    && (w.Owned() <==> w.assignment.Some?)
    && (w.assignment.Some? ==> SoundAssignment(w.assignment.value))
    && (w.lifecycle.Available? <==> w.availableAt.Some?)
    && ValidFailure(w)
    && (w.lifecycle.Available? ==> w.processes == [])
    && ValidProcesses(w.processes)
  }

  ghost predicate AssignmentInCalendar(a: Assignment) {
    && ValidTimestamp(a.assignedAt) && ValidTimestamp(a.renewedAt)
    && ValidTimestamp(a.expiresAt) && ValidTimestamp(a.lastActivityAt)
    && (forall k :: k in a.keepers ==> ValidTimestamp(k.heartbeatAt) && ValidTimestamp(k.validUntil))
  }

  ghost predicate InCalendar(w: Workspace) {
    && ValidTimestamp(w.createdAt) && ValidTimestamp(w.updatedAt)
    && (w.availableAt.Some? ==> ValidTimestamp(w.availableAt.value))
    && (w.assignment.Some? ==> AssignmentInCalendar(w.assignment.value))
  }

  lemma ValidIsSoundInCalendar(w: Workspace)
    ensures ValidWorkspace(w) <==> Sound(w) && InCalendar(w)
  {
    if w.assignment.Some? {
      var a := w.assignment.value;
      assert ValidAssignment(a) <==> SoundAssignment(a) && AssignmentInCalendar(a);
    }
  }

  // ---------------------------------------------------------------------------------------------
  // One record
  // ---------------------------------------------------------------------------------------------

  /** Nothing checks the process records handed over by an installer, the length of a keeper, the
      lifecycle under a cancelled collection, or the published ports; the rest is guarded. */
  ghost predicate Proper(w: Workspace, e: Edit) {
    match e
    case FinishPreparation(_, Some(_), Some(r)) => NewProcessOk(w, r)
    case Retain(_, _, Some(r)) => NewProcessOk(w, r)
    case TrackInstaller(_, r) => NewProcessOk(w, r)
    case BeginActivity(_, nanoseconds) => nanoseconds >= 1_000_000
    case CancelCollection(_) => !w.lifecycle.Preparing?
    case PublishPorts(ports) => forall name :: name in ports ==> ValidPort(name, ports[name])
    case _ => true
  }

  ghost predicate NewProcessOk(w: Workspace, r: Process) {
    FindPid(w.processes, r.pid) == |w.processes| ==> ValidProcess(r)
  }

  lemma AppendedProcesses(processes: seq<Process>, r: Process)
    requires ValidProcesses(processes) && FindPid(processes, r.pid) == |processes|
    ensures ValidProcesses(processes + [r]) <==> ValidProcess(r)
  {
    var longer := processes + [r];
    FindPidIsFirst(processes, r.pid);
    assert r == longer[|processes|];
    assert forall p :: p in longer <==> p in processes || p == r;
  }

  lemma RemainingProcesses(processes: seq<Process>, i: nat)
    requires ValidProcesses(processes) && i < |processes|
    ensures ValidProcesses(Without(processes, i))
  {
  }

  lemma RetainedProcesses(w: Workspace, r: Option<Process>)
    requires Sound(w) && AppendRetained(w, r).Ok?
    ensures AppendRetained(w, r).value == w.(processes := AppendRetained(w, r).value.processes)
    ensures ValidProcesses(AppendRetained(w, r).value.processes) <==> (r.Some? ==> NewProcessOk(w, r.value))
  {
    if r.Some? && FindPid(w.processes, r.value.pid) == |w.processes| { AppendedProcesses(w.processes, r.value); }
  }

  lemma {:induction false} ActiveKeepersDistinct(keepers: seq<Keeper>, at: int, retained: Option<Id>)
    requires DistinctKeepers(keepers)
    ensures DistinctKeepers(ActiveKeepers(keepers, at, retained))
  {
    if keepers != [] {
      ActiveKeepersDistinct(keepers[1..], at, retained);
      ActiveKeepersAre(keepers[1..], at, retained);
      assert forall k :: k in keepers[1..] ==> k.id != keepers[0].id;
    }
  }

  lemma {:induction false} OtherKeepersDistinct(keepers: seq<Keeper>, id: Id, at: int)
    requires DistinctKeepers(keepers)
    ensures DistinctKeepers(OtherKeepers(keepers, id, at))
  {
    if keepers != [] {
      OtherKeepersDistinct(keepers[1..], id, at);
      OtherKeepersAre(keepers[1..], id, at);
      assert forall k :: k in keepers[1..] ==> k.id != keepers[0].id;
    }
  }

  ghost predicate SoundKeepers(keepers: seq<Keeper>) {
    (forall k :: k in keepers ==> k.heartbeatAt < k.validUntil) && DistinctKeepers(keepers)
  }

  lemma SoundActivity(w: Workspace, keepers: seq<Keeper>, at: int, saturates: bool)
    requires Sound(w) && w.lifecycle.Assigned? && at >= w.assignment.value.renewedAt
    requires RecordActivity(w, w.assignment.value.(keepers := keepers), at, saturates).Ok?
    ensures Sound(RecordActivity(w, w.assignment.value.(keepers := keepers), at, saturates).value) <==> SoundKeepers(keepers)
  {
  }

  lemma SoundBeginActivity(w: Workspace, keeper: Id, nanoseconds: int, env: Env)
    requires Sound(w) && EditBeginActivity(w, keeper, nanoseconds, env).Ok?
    ensures Sound(EditBeginActivity(w, keeper, nanoseconds, env).value) <==> nanoseconds >= 1_000_000
  {
    var a := w.assignment.value;
    var now := Later(env.now, a.renewedAt);
    var active := ActiveKeepers(a.keepers, now, None);
    var added := Keeper(keeper, now, now + nanoseconds / 1_000_000);
    ActiveKeepersDistinct(a.keepers, now, None);
    ActiveKeepersAre(a.keepers, now, None);
    assert added in active + [added];
    SoundActivity(w, active + [added], now, env.saturates);
  }

  lemma SoundRefreshedKeepers(keepers: seq<Keeper>, keeper: Id, now: int, duration: int)
    requires SoundKeepers(keepers) && duration > 0
    ensures SoundKeepers(RefreshedKeepers(keepers, keeper, now, duration))
  {
    var beaten := Beaten(keepers, keeper, now, now + duration);
    BeatenAre(keepers, keeper, now, now + duration);
    forall k | k in beaten ensures k.heartbeatAt < k.validUntil {
      var i :| 0 <= i < |beaten| && beaten[i] == k;
      assert keepers[i] in keepers;
    }
    ActiveKeepersDistinct(beaten, now, Some(keeper));
    ActiveKeepersAre(beaten, now, Some(keeper));
  }

  lemma SoundRefreshActivity(w: Workspace, keeper: Id, validUntil: int, env: Env)
    requires Sound(w) && EditRefreshActivity(w, keeper, validUntil, env).Ok?
    ensures Sound(EditRefreshActivity(w, keeper, validUntil, env).value)
  {
    var a := w.assignment.value;
    var now := Later(env.now, a.renewedAt);
    SoundRefreshedKeepers(a.keepers, keeper, now, validUntil - env.now);
    SoundActivity(w, RefreshedKeepers(a.keepers, keeper, now, validUntil - env.now), now, env.saturates);
  }

  lemma SoundFinishActivity(w: Workspace, keeper: Id, env: Env)
    requires Sound(w) && EditFinishActivity(w, keeper, env).Ok?
    ensures Sound(EditFinishActivity(w, keeper, env).value)
  {
    var a := w.assignment.value;
    OtherKeepersDistinct(a.keepers, keeper, Later(env.now, a.renewedAt));
    OtherKeepersAre(a.keepers, keeper, Later(env.now, a.renewedAt));
    SoundActivity(w, OtherKeepers(a.keepers, keeper, Later(env.now, a.renewedAt)), Later(env.now, a.renewedAt), env.saturates);
  }

  lemma SoundProcessEdit(w: Workspace, e: Edit, env: Env)
    requires e.AddProcess? || e.RemoveProcess? || e.TrackInstaller? || e.UntrackInstaller? || e.RemoveUnassigned?
    requires Sound(w) && Edited(w, e, env).Ok?
    ensures Sound(Edited(w, e, env).value) <==> Proper(w, e)
  {
    if e.AddProcess? || e.TrackInstaller? {
      if FindPid(w.processes, e.record.pid) == |w.processes| { AppendedProcesses(w.processes, e.record); }
    } else {
      var i := FindProcess(w.processes, e.pid, e.startedAt);
      RemainingProcesses(w.processes, i);
      assert |w.processes| > 0;
    }
  }

  lemma SoundPreparationEdit(w: Workspace, e: Edit, env: Env)
    requires e.FinishPreparation? || e.MarkAssigned? || e.TakeAvailable? || e.Retain? || e.RecordSuccess?
    requires Sound(w) && Edited(w, e, env).Ok?
    ensures Sound(Edited(w, e, env).value) <==> Proper(w, e)
  {
    if (e.FinishPreparation? && e.verdict.Some?) || e.Retain? { RetainedProcesses(w, e.retained); }
  }

  lemma SoundOtherEdit(w: Workspace, e: Edit, env: Env)
    requires e.RefreshLease? || e.Renew? || e.BeginReturn? || e.FinishReturn? || e.CancelReturn?
          || e.BeginCollection? || e.CancelCollection? || e.PublishPorts?
    requires Sound(w) && Edited(w, e, env).Ok?
    ensures Sound(Edited(w, e, env).value) <==> Proper(w, e)
  {
  }

  /** A guarded call on a sound record writes a sound record exactly when the call is proper. */
  lemma EditIsSoundExactlyWhenProper(w: Workspace, e: Edit, env: Env)
    requires Sound(w) && Edited(w, e, env).Ok?
    ensures Sound(Edited(w, e, env).value) <==> Proper(w, e)
  {
    match e
    case BeginActivity(keeper, nanoseconds) => SoundBeginActivity(w, keeper, nanoseconds, env);
    case RefreshActivity(keeper, validUntil) => SoundRefreshActivity(w, keeper, validUntil, env);
    case FinishActivity(keeper) => SoundFinishActivity(w, keeper, env);
    case AddProcess(_) => SoundProcessEdit(w, e, env);
    case RemoveProcess(_, _) => SoundProcessEdit(w, e, env);
    case TrackInstaller(_, _) => SoundProcessEdit(w, e, env);
    case UntrackInstaller(_, _, _) => SoundProcessEdit(w, e, env);
    case RemoveUnassigned(_, _, _, _, _) => SoundProcessEdit(w, e, env);
    case FinishPreparation(_, _, _) => SoundPreparationEdit(w, e, env);
    case MarkAssigned(_, _) => SoundPreparationEdit(w, e, env);
    case TakeAvailable(_) => SoundPreparationEdit(w, e, env);
    case Retain(_, _, _) => SoundPreparationEdit(w, e, env);
    case RecordSuccess(_, _) => SoundPreparationEdit(w, e, env);
    case _ => SoundOtherEdit(w, e, env);
  }
}
