/**
 What one lifecycle call undoes of another, exactly (internal/lifecycle): a process registered and
 removed, a return cancelled, a collection cancelled, a keeper taken down, and a whole cycle of use.
 */
module Undo {
  import opened Common
  import opened RukState
  import opened Transitions

  lemma {:induction false} AppendedIsFound(processes: seq<Process>, r: Process)
    requires FindPid(processes, r.pid) == |processes|
    ensures FindProcess(processes + [r], r.pid, r.startedAt) == |processes|
  {
    if processes != [] {
      assert (processes + [r])[1..] == processes[1..] + [r];
      AppendedIsFound(processes[1..], r);
    }
  }

  lemma AppendedIsRemoved(w: Workspace, r: Process, before: int, now: int)
    requires FindPid(w.processes, r.pid) == |w.processes|
    ensures Untracked(w.(processes := w.processes + [r], updatedAt := before), r.pid, r.startedAt, now) == Ok(w.(updatedAt := now))
  {
    AppendedIsFound(w.processes, r);
    assert Without(w.processes + [r], |w.processes|) == w.processes;
  }

  /** Registering a process and removing it again leaves every other record in place and in order. */
  lemma RemovalUndoesRegistration(w: Workspace, r: Process, first: Env, second: Env)
    requires EditAddProcess(w, r, first).Ok?
    ensures EditRemoveProcess(EditAddProcess(w, r, first).value, r.pid, r.startedAt, second) == Ok(w.(updatedAt := second.now))
  {
    AppendedIsRemoved(w, r, first.now, second.now);
  }

  /** The same for an installer's tracking, under either fence, with timestamps that only move forward
      whatever the clocks say. */
  lemma UntrackingUndoesTracking(w: Workspace, fence: InstallerFence, r: Process, first: Env, second: Env)
    requires FenceHolds(w, fence) && FindPid(w.processes, r.pid) == |w.processes|
    ensures EditTrackInstaller(w, fence, r, first).Ok?
    ensures var undone := EditUntrackInstaller(EditTrackInstaller(w, fence, r, first).value, fence, r.pid, r.startedAt, second);
            undone.Ok? && undone.value == w.(updatedAt := undone.value.updatedAt) && undone.value.updatedAt > w.updatedAt + 1
  {
    var tracked := EditTrackInstaller(w, fence, r, first).value;
    AppendedIsRemoved(w, r, tracked.updatedAt, NextTimestamp(tracked.updatedAt, second.now));
  }

  /** A cancelled return gives back the assignment it took, its marker and its processes. */
  lemma CancelUndoesReturn(w: Workspace, acquisition: Option<Id>, expiredBy: Option<int>, seen: Option<int>, failure: string, first: Env, second: Env)
    requires ValidWorkspace(w) && w.lifecycle.Assigned? && failure != ""
    requires EditBeginReturn(w, acquisition, expiredBy, seen, first).Ok?
    ensures EditCancelReturn(EditBeginReturn(w, acquisition, expiredBy, seen, first).value, failure, second) ==
              Ok(w.(updatedAt := second.now, failure := Some(failure)))
  {
  }

  /** A cancelled collection gives back a spare or failed workspace; the preparation it took over is
      left as an ordinary failure. */
  lemma CancelUndoesCollection(w: Workspace, seen: int, first: Env, second: Env)
    requires ValidWorkspace(w) && EditBeginCollection(w, seen, first).Ok? && (w.lifecycle.Preparing? || w.operation.None?)
    ensures var cancelled := EditCancelCollection(EditBeginCollection(w, seen, first).value, first.first, second);
            && cancelled.Ok?
            && (w.lifecycle.Available? ==> cancelled.value == w.(updatedAt := second.now, availableAt := Some(second.now)))
            && (w.lifecycle.Failed? ==> cancelled.value == w.(updatedAt := second.now))
            && (w.lifecycle.Preparing? ==>
                  cancelled.value == w.(lifecycle := Failed, operation := None, failure := Some(ABANDONED_PREPARATION), updatedAt := second.now))
  {
  }

  /** Taking down a keeper, on the platform it was put up on, leaves exactly the others that have not
      lapsed by either beat. */
  lemma FinishUndoesBegin(w: Workspace, keeper: Id, nanoseconds: int, first: Env, second: Env, k: Keeper)
    requires EditBeginActivity(w, keeper, nanoseconds, first).Ok? && second.saturates == first.saturates
    ensures var begun := EditBeginActivity(w, keeper, nanoseconds, first).value;
            var done := EditFinishActivity(begun, keeper, second);
            && done.Ok? && done.value.assignment.Some?
            && (k in done.value.assignment.value.keepers <==>
                  k in w.assignment.value.keepers && k.validUntil > Later(first.now, w.assignment.value.renewedAt) && k.validUntil > done.value.assignment.value.renewedAt)
  {
    var a := w.assignment.value;
    var at := Later(first.now, a.renewedAt);
    var added := Keeper(keeper, at, at + nanoseconds / 1_000_000);
    var keepers := ActiveKeepers(a.keepers, at, None) + [added];
    ActiveKeepersAre(a.keepers, at, None);
    assert added in keepers;
    OtherKeepersAre(keepers, keeper, Later(second.now, at));
  }

  /** The clocks of one cycle of use. */
  datatype Cycle = Cycle(taken: Env, ready: Env, fence: Env, done: Env)

  /** Handed out, finished, fenced and returned: a spare workspace comes back as it was, except for its
      timestamps and the branch it was asked for; no trace of the assignment stays. */
  lemma UseLeavesNoTrace(w: Workspace, input: AssignmentInput, reused: bool, at: Cycle)
    requires ValidWorkspace(w) && Eligible(w) && GoodInput(input) && Expiry(input, at.taken.now).Ok?
    ensures var used := EditTakeAvailable(w, input, at.taken);
            && used.Ok?
            && var ready := EditRecordSuccess(used.value, at.taken.second, at.ready);
               && ready.Ok?
               && var fenced := EditBeginReturn(ready.value, None, None, None, at.fence);
                  && fenced.Ok?
                  && EditFinishReturn(fenced.value, at.done) ==
                       Ok(w.(branch := if input.branch == "" then w.branch else input.branch, updatedAt := at.done.now, availableAt := Some(at.done.now)))
  {
  }
}
