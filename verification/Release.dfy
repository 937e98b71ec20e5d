/**
 Releasing an assignment, as the releasing process runs it (internal/lifecycle/release_service.go):
 fence, drain every tracked process, return the worktree, publish; and restore ownership when any of
 that fails. What processes and Git answer is given from outside.
 */
module Release {
  import opened Common
  import opened RukState
  import opened Transitions
  import opened Lifecycle
  import opened Fences
  import opened Service

  datatype Probe = Gone | Alive | Unknown

  /** What one tracked process does while it is being cleaned: the first look, whether each signal can
      be sent, and what polling sees after it until the timeout. */
  datatype Trial = Trial(first: Probe, stops: bool, polls: seq<Probe>, kills: bool, forcedPolls: seq<Probe>, env: Env)

  datatype Drain = Drained | TimedOut(alive: bool)

  /** Polls until the process is gone or time is up; a timeout says whether the last look saw it. */
  method WaitForProcessDrain(polls: seq<Probe>) returns (drain: Drain)
    ensures drain.Drained? <==> Gone in polls
    ensures drain.TimedOut? ==> (drain.alive <==> polls != [] && polls[|polls| - 1].Alive?)
  {
    var observedAlive := false;
    for i := 0 to |polls|
      invariant Gone !in polls[..i]
      invariant observedAlive <==> i > 0 && polls[i - 1].Alive?
    {
      if polls[i].Gone? { return Drained; }
      assert polls[..i + 1] == polls[..i] + [polls[i]];
      observedAlive := polls[i].Alive?;
    }
    assert polls[..|polls|] == polls;
    drain := TimedOut(observedAlive);
  }

  predicate SeenLast(polls: seq<Probe>) { polls != [] && polls[|polls| - 1].Alive? }

  /** The process was observed gone: at once, after a graceful stop, or, when forced and still seen
      alive at the timeout, after a kill. */
  predicate WentAway(t: Trial, force: bool) {
    || t.first.Gone?
    || (t.first.Alive? && t.stops && (Gone in t.polls || (force && SeenLast(t.polls) && t.kills && Gone in t.forcedPolls)))
  }

  /** Some look saw it gone, and a look after a kill counts only when forced and after one that saw it
      alive. */
  lemma WentAwayMeansSeenGone(t: Trial, force: bool)
    requires WentAway(t, force)
    ensures t.first.Gone? || Gone in t.polls || Gone in t.forcedPolls
    ensures t.first.Gone? || (t.first.Alive? && t.stops)
    ensures !t.first.Gone? && Gone !in t.polls ==> force && t.kills && t.polls != [] && t.polls[|t.polls| - 1].Alive?
  {
  }

  method CleanOne(t: Trial, force: bool) returns (gone: bool, alive: bool)
    ensures gone <==> WentAway(t, force)
    ensures gone ==> t.first.Gone? || Gone in t.polls || Gone in t.forcedPolls
    ensures gone && !t.first.Gone? && Gone !in t.polls ==> force && t.polls != [] && t.polls[|t.polls| - 1].Alive?
    ensures t.first.Unknown? ==> !gone
    ensures t.first.Gone? || (t.first.Alive? && t.stops && Gone in t.polls) ==> gone
    ensures t.first.Alive? && t.stops && force && t.kills && t.polls != [] && t.polls[|t.polls| - 1].Alive? && Gone in t.forcedPolls ==> gone
    ensures alive <==> t.first.Alive?
  {
    alive := t.first.Alive?;
    if t.first.Unknown? { return false, alive; }
    if t.first.Gone? { return true, alive; }
    if !t.stops { return false, alive; }
    var drain := WaitForProcessDrain(t.polls);
    if drain.Drained? { return true, alive; }
    if !force || !drain.alive { return false, alive; }
    if !t.kills { return false, alive; }
    drain := WaitForProcessDrain(t.forcedPolls);
    gone := drain.Drained?;
  }

  // ---------------------------------------------------------------------------------------------
  // Draining
  // ---------------------------------------------------------------------------------------------

  function Removal(id: Id, record: Process): Command { For(id, RemoveProcess(record.pid, record.startedAt)) }

  type Remover = (State, nat) -> Result<State, Refusal>

  /** What taking the i-th record out of the state comes to. */
  ghost function Removals(id: Id, records: seq<Process>, trials: seq<Trial>): Remover {
    (s: State, i: nat) => if i < |records| && i < |trials| then Apply(s, Removal(id, records[i]), trials[i].env) else Err(NotTracked)
  }

  datatype Cleanup = Cleanup(document: State, done: nat, failed: bool)

  function CleanedOne(s: State, removed: Result<State, Refusal>, t: Trial, force: bool, n: nat): Cleanup {
    if !WentAway(t, force) || removed.Err? then Cleanup(s, n, true) else Cleanup(removed.value, n + 1, false)
  }

  /** Records go one by one, in order, each only after its process was observed gone: the first `i`. */
  function Cleaned(s: State, remove: Remover, trials: seq<Trial>, force: bool, i: nat): (c: Cleanup)
    requires i <= |trials|
    ensures c.done <= i && (!c.failed ==> c.done == i)
  {
    if i == 0 then Cleanup(s, 0, false)
    else
      var before := Cleaned(s, remove, trials, force, i - 1);
      if before.failed then before else CleanedOne(before.document, remove(before.document, i - 1), trials[i - 1], force, i - 1)
  }

  lemma {:induction false} FailureStops(s: State, remove: Remover, trials: seq<Trial>, force: bool, i: nat, n: nat)
    requires i <= n <= |trials| && Cleaned(s, remove, trials, force, i).failed
    ensures Cleaned(s, remove, trials, force, n) == Cleaned(s, remove, trials, force, i)
    decreases n
  {
    if i < n { FailureStops(s, remove, trials, force, i, n - 1); }
  }

  /** A cleanup that did not fail saw every process gone: some look at it says so, and the looks after a
      kill count only when forced, after one that saw it alive. */
  lemma {:induction false} CleanedMeansGone(s: State, remove: Remover, trials: seq<Trial>, force: bool, i: nat, k: nat)
    requires k < i <= |trials| && !Cleaned(s, remove, trials, force, i).failed
    ensures trials[k].first.Gone? || Gone in trials[k].polls || Gone in trials[k].forcedPolls
    ensures trials[k].first.Gone? || (trials[k].first.Alive? && trials[k].stops)
    ensures !trials[k].first.Gone? && Gone !in trials[k].polls ==>
              force && trials[k].kills && trials[k].polls != [] && trials[k].polls[|trials[k].polls| - 1].Alive?
    decreases i
  {
    if k == i - 1 { WentAwayMeansSeenGone(trials[k], force); }
    if k < i - 1 { CleanedMeansGone(s, remove, trials, force, i - 1, k); }
  }

  method CleanNext(repository: Repository, c: Command, t: Trial, force: bool, ghost n: nat)
    returns (alive: bool, failed: bool, ghost removed: Result<State, Refusal>)
    requires repository.Valid() && c.For? && !c.edit.PublishPorts?
    modifies repository
    ensures repository.Valid()
    ensures removed == Apply(old(repository.Document()), c, t.env)
    ensures CleanedOne(old(repository.Document()), removed, t, force, n) == Cleanup(repository.Document(), if failed then n else n + 1, failed)
    ensures alive <==> t.first.Alive?
  {
    var gone;
    removed := Apply(repository.Document(), c, t.env);
    gone, alive := CleanOne(t, force);
    failed := !gone;
    if gone {
      var ok;
      ok, removed := Carry(repository, c, t.env);
      failed := !ok;
    }
  }

  /** How many were still running when first looked at. */
  function Stopped(trials: seq<Trial>): nat {
    if trials == [] then 0
    else
      var n := |trials| - 1;
      Stopped(trials[..n]) + if trials[n].first.Alive? then 1 else 0
  }

  function Done(remove: Remover, s: State, i: nat): Result<State, Refusal> { remove(s, i) }

  ghost predicate Performs(remove: Remover, id: Id, records: seq<Process>, trials: seq<Trial>) {
    |records| == |trials| &&
    forall s, i: nat {:trigger Done(remove, s, i)} :: i < |records| ==> Done(remove, s, i) == Apply(s, Removal(id, records[i]), trials[i].env)
  }

  lemma RemovalsPerform(id: Id, records: seq<Process>, trials: seq<Trial>)
    requires |trials| == |records|
    ensures Performs(Removals(id, records, trials), id, records, trials)
  {
  }

  lemma PerformsAt(remove: Remover, id: Id, records: seq<Process>, trials: seq<Trial>, s: State, i: nat)
    requires Performs(remove, id, records, trials) && i < |records|
    ensures remove(s, i) == Apply(s, Removal(id, records[i]), trials[i].env)
  {
    assert Done(remove, s, i) == Apply(s, Removal(id, records[i]), trials[i].env);
  }

  method CleanAt(repository: Repository, c: Command, trials: seq<Trial>, force: bool, i: nat, ghost start: State, ghost remove: Remover)
    returns (alive: bool, failed: bool)
    requires repository.Valid() && i < |trials| && c.For? && !c.edit.PublishPorts?
    requires remove(repository.Document(), i) == Apply(repository.Document(), c, trials[i].env)
    requires Cleaned(start, remove, trials, force, i) == Cleanup(repository.Document(), i, false)
    modifies repository
    ensures repository.Valid()
    ensures failed ==> Cleaned(start, remove, trials, force, |trials|) == Cleanup(repository.Document(), i, true)
    ensures !failed ==> Cleaned(start, remove, trials, force, i + 1) == Cleanup(repository.Document(), i + 1, false)
    ensures alive <==> trials[i].first.Alive?
  {
    ghost var removed;
    alive, failed, removed := CleanNext(repository, c, trials[i], force, i);
    if failed { FailureStops(start, remove, trials, force, i + 1, |trials|); }
  }

  method CleanRecord(repository: Repository, id: Id, records: seq<Process>, trials: seq<Trial>, force: bool, i: nat, ghost start: State, ghost remove: Remover)
    returns (alive: bool, failed: bool)
    requires repository.Valid() && Performs(remove, id, records, trials) && i < |records|
    requires Cleaned(start, remove, trials, force, i) == Cleanup(repository.Document(), i, false)
    modifies repository
    ensures repository.Valid()
    ensures failed ==> Cleaned(start, remove, trials, force, |trials|) == Cleanup(repository.Document(), i, true)
    ensures !failed ==> Cleaned(start, remove, trials, force, i + 1) == Cleanup(repository.Document(), i + 1, false)
    ensures alive <==> trials[i].first.Alive?
  {
    PerformsAt(remove, id, records, trials, repository.Document(), i);
    alive, failed := CleanAt(repository, Removal(id, records[i]), trials, force, i, start, remove);
  }

  method CleanProcesses(repository: Repository, id: Id, records: seq<Process>, trials: seq<Trial>, force: bool, ghost remove: Remover)
    returns (cleaned: nat, failed: bool)
    requires repository.Valid() && Performs(remove, id, records, trials)
    modifies repository
    ensures repository.Valid()
    ensures var c := Cleaned(old(repository.Document()), remove, trials, force, |trials|);
            c.document == repository.Document() && c.failed == failed
    ensures !failed ==> cleaned == Stopped(trials)
  {
    ghost var start := repository.Document();
    cleaned, failed := 0, false;
    var i := 0;
    while i < |records|
      invariant 0 <= i <= |records| && repository.Valid()
      invariant Cleaned(start, remove, trials, force, i) == Cleanup(repository.Document(), i, false)
      invariant cleaned == Stopped(trials[..i])
    {
      var alive;
      alive, failed := CleanRecord(repository, id, records, trials, force, i, start, remove);
      if failed { return; }
      if alive { cleaned := cleaned + 1; }
      assert trials[..i + 1][..i] == trials[..i];
      i := i + 1;
    }
    assert trials[..i] == trials;
  }

  // ---------------------------------------------------------------------------------------------
  // What a cleanup shows
  // ---------------------------------------------------------------------------------------------

  ghost predicate ReturningAt(s: State, p: Path, id: Id, operation: Option<Id>, processes: seq<Process>) {
    ValidState(s) && p in s.workspaces && s.workspaces[p].lifecycle.Returning? && s.workspaces[p].Carries(id)
    && s.workspaces[p].operation == operation && s.workspaces[p].processes == processes
  }

  lemma FirstIsRemoved(w: Workspace, env: Env)
    requires w.Owned() && w.processes != []
    ensures Edited(w, RemoveProcess(w.processes[0].pid, w.processes[0].startedAt), env) == Ok(w.(processes := w.processes[1..], updatedAt := env.now))
  {
    assert Without(w.processes, 0) == w.processes[1..];
  }

  lemma RemovalTakesTheFirst(s: State, p: Path, id: Id, operation: Option<Id>, processes: seq<Process>, env: Env)
    requires ReturningAt(s, p, id, operation, processes) && processes != [] && Apply(s, Removal(id, processes[0]), env).Ok?
    ensures ReturningAt(Apply(s, Removal(id, processes[0]), env).value, p, id, operation, processes[1..])
  {
    HolderIsUnique(s.workspaces, id, p);
    FirstIsRemoved(s.workspaces[p], env);
  }

  /** Taking out the n-th of the records a returning workspace tracks leaves the ones after it. */
  ghost predicate TakesInOrder(remove: Remover, p: Path, id: Id, operation: Option<Id>, records: seq<Process>) {
    forall s, n: nat :: n < |records| && ReturningAt(s, p, id, operation, records[n..]) && remove(s, n).Ok? ==>
      ReturningAt(remove(s, n).value, p, id, operation, records[n + 1..])
  }

  lemma RemovalsTakeInOrder(p: Path, id: Id, operation: Option<Id>, records: seq<Process>, trials: seq<Trial>)
    requires |trials| == |records|
    ensures TakesInOrder(Removals(id, records, trials), p, id, operation, records)
  {
    var remove := Removals(id, records, trials);
    forall s, n: nat | n < |records| && ReturningAt(s, p, id, operation, records[n..]) && remove(s, n).Ok?
      ensures ReturningAt(remove(s, n).value, p, id, operation, records[n + 1..])
    {
      RemovalTakesTheFirst(s, p, id, operation, records[n..], trials[n].env);
      assert records[n..][1..] == records[n + 1..];
    }
  }

  lemma OneTaken(s: State, remove: Remover, p: Path, id: Id, operation: Option<Id>, records: seq<Process>, n: nat)
    requires TakesInOrder(remove, p, id, operation, records)
    requires n < |records| && ReturningAt(s, p, id, operation, records[n..]) && remove(s, n).Ok?
    ensures ReturningAt(remove(s, n).value, p, id, operation, records[n + 1..])
  {
  }

  /** With nobody else at work on the record, a cleanup of everything it tracks, wherever it stops,
      has removed exactly the records it got through; fence, assignment and marker stay. */
  lemma {:induction false} CleanupRemovesInOrder(s: State, remove: Remover, p: Path, id: Id, operation: Option<Id>, records: seq<Process>, trials: seq<Trial>, force: bool, i: nat)
    requires |trials| == |records| && i <= |records| && ReturningAt(s, p, id, operation, records)
    requires TakesInOrder(remove, p, id, operation, records)
    ensures var c := Cleaned(s, remove, trials, force, i);
            c.done <= i && ReturningAt(c.document, p, id, operation, records[c.done..])
  {
    if i == 0 {
      assert records[0..] == records;
    } else {
      CleanupRemovesInOrder(s, remove, p, id, operation, records, trials, force, i - 1);
      var before := Cleaned(s, remove, trials, force, i - 1);
      if !before.failed && remove(before.document, i - 1).Ok? { OneTaken(before.document, remove, p, id, operation, records, i - 1); }
    }
  }

  // ---------------------------------------------------------------------------------------------
  // The release
  // ---------------------------------------------------------------------------------------------

  /** The clock and identifiers each of the three writes finds. */
  datatype Envs = Envs(begin: Env, finish: Env, cancel: Env)

  datatype Ending = Ending(document: State, released: bool)

  ghost function Cancelled(document: State, restored: Result<State, Refusal>): Ending {
    Ending(if restored.Ok? then restored.value else document, false)
  }

  ghost function Finished(document: State, id: Id, finished: Result<State, Refusal>, failure: string, env: Env): Ending {
    match finished
    case Ok(next) => Ending(next, true)
    case Err(_) => Cancelled(document, Apply(document, For(id, CancelReturn(failure)), env))
  }

  method CancelRelease(repository: Repository, id: Id, failure: string, env: Env)
    requires repository.Valid()
    modifies repository
    ensures repository.Valid()
    ensures Cancelled(old(repository.Document()), Apply(old(repository.Document()), For(id, CancelReturn(failure)), env)) ==
              Ending(repository.Document(), false)
  {
    var ok;
    ghost var next;
    ok, next := Carry(repository, For(id, CancelReturn(failure)), env);
  }

  method FinishRelease(repository: Repository, id: Id, failure: string, envs: Envs) returns (released: bool)
    requires repository.Valid()
    modifies repository
    ensures repository.Valid()
    ensures Finished(old(repository.Document()), id, Apply(old(repository.Document()), For(id, FinishReturn), envs.finish), failure, envs.cancel)
              == Ending(repository.Document(), released)
  {
    ghost var next;
    released, next := Carry(repository, For(id, FinishReturn), envs.finish);
    if !released { CancelRelease(repository, id, failure, envs.cancel); }
  }

  /** After the fence: drain, return the worktree, and publish, or give the assignment back. */
  ghost function AfterFence(s: State, id: Id, records: seq<Process>, trials: seq<Trial>, force: bool, returned: bool, failure: string, envs: Envs): Ending
    requires |trials| == |records|
  {
    var c := Cleaned(s, Removals(id, records, trials), trials, force, |trials|);
    if c.failed || !returned then Cancelled(c.document, Apply(c.document, For(id, CancelReturn(failure)), envs.cancel))
    else Finished(c.document, id, Apply(c.document, For(id, FinishReturn), envs.finish), failure, envs.cancel)
  }

  method DrainAndPublish(repository: Repository, id: Id, records: seq<Process>, trials: seq<Trial>, force: bool, returned: bool, failure: string, envs: Envs)
    returns (released: bool, cleaned: nat)
    requires repository.Valid() && |trials| == |records|
    modifies repository
    ensures repository.Valid()
    ensures AfterFence(old(repository.Document()), id, records, trials, force, returned, failure, envs) == Ending(repository.Document(), released)
  {
    var failed;
    RemovalsPerform(id, records, trials);
    cleaned, failed := CleanProcesses(repository, id, records, trials, force, Removals(id, records, trials));
    released := false;
    if failed || !returned {
      CancelRelease(repository, id, failure, envs.cancel);
    } else {
      released := FinishRelease(repository, id, failure, envs);
    }
  }

  // ---------------------------------------------------------------------------------------------
  // What a release shows
  // ---------------------------------------------------------------------------------------------

  lemma FinishApplies(s: State, p: Path, id: Id, operation: Option<Id>, processes: seq<Process>, env: Env)
    requires ReturningAt(s, p, id, operation, processes) && Apply(s, For(id, FinishReturn), env).Ok?
    ensures var ws := Apply(s, For(id, FinishReturn), env).value.workspaces;
            processes == [] && p in ws && Eligible(ws[p]) && ws[p].assignment.None? && ws[p].processes == []
  {
    HolderIsUnique(s.workspaces, id, p);
  }

  lemma CancelKeepsMarker(s: State, p: Path, id: Id, operation: Option<Id>, processes: seq<Process>, failure: string, env: Env)
    requires ReturningAt(s, p, id, operation, processes) && Apply(s, For(id, CancelReturn(failure)), env).Ok?
    ensures var ws := Apply(s, For(id, CancelReturn(failure)), env).value.workspaces;
            p in ws && ws[p].lifecycle.Assigned? && ws[p].assignment == s.workspaces[p].assignment
            && ws[p].operation == operation && ws[p].processes == processes && ws[p].failure == Some(failure)
  {
    HolderIsUnique(s.workspaces, id, p);
  }

  /** A release that reports success returned the worktree, has for every tracked process a look that saw
      it gone, none of them a process whose first look could not tell, and left the workspace available
      with nothing tracked. */
  lemma ReleasedMeansDrained(s: State, p: Path, id: Id, operation: Option<Id>, records: seq<Process>, trials: seq<Trial>,
                             force: bool, returned: bool, failure: string, envs: Envs)
    requires |trials| == |records| && ReturningAt(s, p, id, operation, records)
    requires AfterFence(s, id, records, trials, force, returned, failure, envs).released
    ensures returned
    ensures forall k :: 0 <= k < |trials| ==> trials[k].first.Gone? || Gone in trials[k].polls || Gone in trials[k].forcedPolls
    ensures forall k :: 0 <= k < |trials| ==> trials[k].first.Gone? || (trials[k].first.Alive? && trials[k].stops)
    ensures forall k :: 0 <= k < |trials| && !trials[k].first.Gone? && Gone !in trials[k].polls ==>
              force && trials[k].kills && trials[k].polls != [] && trials[k].polls[|trials[k].polls| - 1].Alive?
    ensures var ws := AfterFence(s, id, records, trials, force, returned, failure, envs).document.workspaces;
            p in ws && Eligible(ws[p]) && ws[p].assignment.None? && ws[p].processes == []
  {
    RemovalsTakeInOrder(p, id, operation, records, trials);
    CleanupRemovesInOrder(s, Removals(id, records, trials), p, id, operation, records, trials, force, |records|);
    var c := Cleaned(s, Removals(id, records, trials), trials, force, |trials|);
    forall k | 0 <= k < |trials| { CleanedMeansGone(s, Removals(id, records, trials), trials, force, |trials|, k); }
    FinishApplies(c.document, p, id, operation, records[c.done..], envs.finish);
  }

  lemma {:induction false} UnknownFailsCleanup(s: State, remove: Remover, trials: seq<Trial>, force: bool, i: nat, k: nat)
    requires k < i <= |trials| && trials[k].first.Unknown?
    ensures Cleaned(s, remove, trials, force, i).failed
  {
    if !Cleaned(s, remove, trials, force, i).failed { CleanedMeansGone(s, remove, trials, force, i, k); }
  }

  /** A first look that cannot tell always fails the release, forced or not, whatever later looks would
      see; the assignment and its marker stay with the owner. */
  lemma UnknownFailsRelease(s: State, p: Path, id: Id, operation: Option<Id>, records: seq<Process>, trials: seq<Trial>,
                            force: bool, returned: bool, failure: string, envs: Envs, k: nat)
    requires |trials| == |records| && ReturningAt(s, p, id, operation, records) && k < |trials| && trials[k].first.Unknown?
    ensures !AfterFence(s, id, records, trials, force, returned, failure, envs).released
    ensures var ws := AfterFence(s, id, records, trials, force, returned, failure, envs).document.workspaces;
            p in ws && StillTheirs(ws[p], id, operation)
  {
    UnknownFailsCleanup(s, Removals(id, records, trials), trials, force, |trials|, k);
    FailedReleaseGivesBack(s, p, id, operation, records, trials, force, returned, failure, envs);
  }

  predicate StillTheirs(w: Workspace, id: Id, operation: Option<Id>) { w.Owned() && w.Carries(id) && w.operation == operation }

  /** A release that fails anywhere leaves the assignment with its owner and its marker, back in the
      assigned state unless the restoring write itself was refused. */
  lemma FailedReleaseGivesBack(s: State, p: Path, id: Id, operation: Option<Id>, records: seq<Process>, trials: seq<Trial>,
                               force: bool, returned: bool, failure: string, envs: Envs)
    requires |trials| == |records| && ReturningAt(s, p, id, operation, records)
    requires !AfterFence(s, id, records, trials, force, returned, failure, envs).released
    ensures var ws := AfterFence(s, id, records, trials, force, returned, failure, envs).document.workspaces;
            p in ws && StillTheirs(ws[p], id, operation)
    ensures var c := Cleaned(s, Removals(id, records, trials), trials, force, |trials|);
            Apply(c.document, For(id, CancelReturn(failure)), envs.cancel).Ok? ==>
              var ws := AfterFence(s, id, records, trials, force, returned, failure, envs).document.workspaces;
              p in ws && ws[p].lifecycle.Assigned? && ws[p].failure == Some(failure)
  {
    RemovalsTakeInOrder(p, id, operation, records, trials);
    CleanupRemovesInOrder(s, Removals(id, records, trials), p, id, operation, records, trials, force, |records|);
    var c := Cleaned(s, Removals(id, records, trials), trials, force, |trials|);
    if Apply(c.document, For(id, CancelReturn(failure)), envs.cancel).Ok? {
      CancelKeepsMarker(c.document, p, id, operation, records[c.done..], failure, envs.cancel);
    }
  }

  function Trials(records: seq<Process>, trial: Process -> Trial): (trials: seq<Trial>)
    ensures |trials| == |records| && forall k :: 0 <= k < |records| ==> trials[k] == trial(records[k])
  {
    seq(|records|, k requires 0 <= k < |records| => trial(records[k]))
  }

  /** Of every process the assignment's record tracks, some look saw it gone; looks after a kill count
      only when forced. */
  ghost predicate SawAllGone(s: State, p: Path, id: Id, trial: Process -> Trial, force: bool) {
    && p in s.workspaces && s.workspaces[p].Carries(id)
    && forall r :: r in s.workspaces[p].processes ==>
         trial(r).first.Gone? || (trial(r).first.Alive? && (Gone in trial(r).polls || (force && Gone in trial(r).forcedPolls)))
  }

  lemma ReleasedSawAllGone(s: State, p: Path, id: Id, trial: Process -> Trial, force: bool, returned: bool, failure: string, envs: Envs)
    requires ValidState(s) && p in s.workspaces && s.workspaces[p].Carries(id) && s.workspaces[p].lifecycle.Returning?
    requires var records := s.workspaces[p].processes;
             AfterFence(s, id, records, Trials(records, trial), force, returned, failure, envs).released
    ensures returned && SawAllGone(s, p, id, trial, force)
  {
    var records := s.workspaces[p].processes;
    ReleasedMeansDrained(s, p, id, s.workspaces[p].operation, records, Trials(records, trial), force, returned, failure, envs);
    forall r | r in records
      ensures trial(r).first.Gone? || (trial(r).first.Alive? && (Gone in trial(r).polls || (force && Gone in trial(r).forcedPolls)))
    {
      var k :| 0 <= k < |records| && records[k] == r;
      assert Trials(records, trial)[k] == trial(r);
    }
  }

  /** An accepted fence leaves the assignment's record returning. */
  lemma FenceReturns(s: State, id: Id, begin: Edit, env: Env, p: Path)
    requires begin.BeginReturn? && Apply(s, For(id, begin), env).Ok? && Holder(Apply(s, For(id, begin), env).value.workspaces, id) == Some(p)
    requires ValidState(s)
    ensures var begun := Apply(s, For(id, begin), env).value;
            ValidState(begun) && p in begun.workspaces && begun.workspaces[p].Carries(id) && begun.workspaces[p].lifecycle.Returning?
  {
    var begun := Apply(s, For(id, begin), env).value;
    var q := Holder(s.workspaces, id).value;
    assert begun.workspaces[q].Carries(id);
    HolderIsUnique(begun.workspaces, id, q);
  }

  /** From the fence on. */
  method ReleaseFenced(repository: Repository, p: Path, id: Id, trial: Process -> Trial, force: bool, returned: bool, failure: string, envs: Envs)
    returns (released: bool)
    requires repository.Valid() && p in repository.workspaces
    requires repository.workspaces[p].Carries(id) && repository.workspaces[p].lifecycle.Returning?
    modifies repository
    ensures repository.Valid()
    ensures var s := old(repository.Document());
            AfterFence(s, id, s.workspaces[p].processes, Trials(s.workspaces[p].processes, trial), force, returned, failure, envs) == Ending(repository.Document(), released)
    ensures released ==> returned && SawAllGone(old(repository.Document()), p, id, trial, force)
  {
    ghost var s := repository.Document();
    var records := repository.workspaces[p].processes;
    var cleaned;
    released, cleaned := DrainAndPublish(repository, id, records, Trials(records, trial), force, returned, failure, envs);
    if released { ReleasedSawAllGone(s, p, id, trial, force, returned, failure, envs); }
  }

  /** The whole release. A refused fence changes nothing; after the fence everything goes as above, for
      the processes the record held when the fence went up. */
  method ReleaseAssignment(repository: Repository, id: Id, begin: Edit, trial: Process -> Trial, force: bool, returned: bool, failure: string, envs: Envs)
    returns (released: bool, ghost begun: Result<State, Refusal>)
    requires repository.Valid() && begin.BeginReturn?
    modifies repository
    ensures repository.Valid()
    ensures begun == Apply(old(repository.Document()), For(id, begin), envs.begin)
    ensures begun.Err? ==> !released && repository.Document() == old(repository.Document())
    ensures begun.Ok? ==>
              var p := Holder(begun.value.workspaces, id);
              if p.None? then !released && repository.Document() == begun.value
              else
                var records := begun.value.workspaces[p.value].processes;
                AfterFence(begun.value, id, records, Trials(records, trial), force, returned, failure, envs) == Ending(repository.Document(), released)
    ensures released ==> returned && begun.Ok? && exists p :: SawAllGone(begun.value, p, id, trial, force)
  {
    var ok;
    ok, begun := Carry(repository, For(id, begin), envs.begin);
    released := false;
    if !ok { return; }
    var p := FindAssignment(repository.workspaces, id);
    if p.None? { return; }
    FenceReturns(old(repository.Document()), id, begin, envs.begin, p.value);
    released := ReleaseFenced(repository, p.value, id, trial, force, returned, failure, envs);
  }
}
