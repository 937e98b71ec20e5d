/** Which workspaces garbage collection may take (internal/lifecycle/gc.go). */
module Collection {
  import opened Common
  import opened RukState
  import opened Transitions
  import opened Text
  import Sorting

  datatype Reason =
    | UnusedCapacity
    | FailedWorkspace
    | AbandonedPreparation
    | AbandonedAcquisition
    | InterruptedCollection
    | ExpiredAssignment

  datatype Candidate = Candidate(workspace: Workspace, reason: Reason)

  predicate HasActiveKeeper(keepers: seq<Keeper>, now: int) { exists k :: k in keepers && k.validUntil > now }

  /** The reason a workspace may be collected, if there is one; an available workspace without its
      timestamp is an error. */
  function Classify(w: Workspace, cutoff: int, now: int, includeAbandoned: bool): Result<Option<Reason>, Refusal> {
    if w.operation.Some? && includeAbandoned && w.lifecycle.Preparing? && w.updatedAt <= cutoff then
      Ok(Some(AbandonedPreparation))
    else if w.operation.Some? && includeAbandoned && w.lifecycle.Assigned? && w.updatedAt <= cutoff then
      Ok(Some(AbandonedAcquisition))
    else if w.operation.Some? && includeAbandoned && (w.lifecycle.Available? || w.lifecycle.Failed?) then
      Ok(Some(InterruptedCollection))
    else if w.operation.None? && w.lifecycle.Available? && w.availableAt.None? then Err(BadInput)
    else if w.operation.None? && w.lifecycle.Available? && w.availableAt.value <= cutoff then Ok(Some(UnusedCapacity))
    else if w.operation.None? && w.lifecycle.Failed? && w.updatedAt <= cutoff then Ok(Some(FailedWorkspace))
    else if w.assignment.Some? && w.assignment.value.expiresAt <= now && !HasActiveKeeper(w.assignment.value.keepers, now) then
      Ok(Some(ExpiredAssignment))
    else Ok(None)
  }

  /** A lease someone can still count on at `now`. */
  predicate LeaseLive(a: Assignment, now: int) { a.expiresAt > now || HasActiveKeeper(a.keepers, now) }

  /** Work that collection has to leave alone, by lifecycle. */
  predicate Protected(w: Workspace, cutoff: int, now: int) {
    match w.lifecycle
    case Preparing => w.updatedAt > cutoff
    case Available => w.operation.None? && w.availableAt.Some? && w.availableAt.value > cutoff
    case Failed => w.operation.None? && w.updatedAt > cutoff
    case Assigned => (w.operation.Some? ==> w.updatedAt > cutoff) && w.assignment.Some? && LeaseLive(w.assignment.value, now)
    case Returning => w.assignment.Some? && LeaseLive(w.assignment.value, now)
  }

  /** A valid workspace is a candidate exactly when it is not protected, and needs force exactly when
      an owned workspace's lease is over and its acquisition, if any, is not yet abandoned. */
  lemma CandidateUnlessProtected(w: Workspace, cutoff: int, now: int)
    requires ValidWorkspace(w)
    ensures Classify(w, cutoff, now, true).Ok?
    ensures Classify(w, cutoff, now, true).value.None? <==> Protected(w, cutoff, now)
    ensures Classify(w, cutoff, now, true) == Ok(Some(ExpiredAssignment)) <==>
              w.Owned() && !LeaseLive(w.assignment.value, now) &&
              !(w.lifecycle.Assigned? && w.operation.Some? && w.updatedAt <= cutoff)
  {
  }

  /** The reason given is the record's own: what it is, and what its age or its lease says. */
  lemma ReasonSaysWhy(w: Workspace, cutoff: int, now: int)
    requires ValidWorkspace(w) && Classify(w, cutoff, now, true).Ok? && Classify(w, cutoff, now, true).value.Some?
    ensures match Classify(w, cutoff, now, true).value.value
            case UnusedCapacity => w.lifecycle.Available? && w.operation == None && w.availableAt.value <= cutoff
            case FailedWorkspace => w.lifecycle.Failed? && w.operation == None && w.updatedAt <= cutoff
            case AbandonedPreparation => w.lifecycle.Preparing? && w.updatedAt <= cutoff
            case AbandonedAcquisition => w.lifecycle.Assigned? && w.operation.Some? && w.updatedAt <= cutoff
            case InterruptedCollection => (w.lifecycle.Available? || w.lifecycle.Failed?) && w.operation.Some?
            case ExpiredAssignment =>
              && w.assignment.Some? && w.assignment.value.expiresAt <= now
              && forall k :: k in w.assignment.value.keepers ==> k.validUntil <= now
  {
  }

  /** Left to itself, the plan passes over everything an operation still fences, except a lease that is
      over. */
  lemma FencedIsPassedOver(w: Workspace, cutoff: int, now: int)
    requires ValidWorkspace(w)
    ensures w.operation == None ==> Classify(w, cutoff, now, false) == Classify(w, cutoff, now, true)
    ensures w.operation.Some? ==>
              Classify(w, cutoff, now, false) == Ok(if w.Owned() && !LeaseLive(w.assignment.value, now) then Some(ExpiredAssignment) else None)
  {
  }

  predicate RecordedBy(w: Workspace, t: int) {
    && w.updatedAt <= t
    && (w.availableAt.Some? ==> w.availableAt.value <= t)
    && (w.assignment.Some? ==> w.assignment.value.expiresAt <= t && forall k :: k in w.assignment.value.keepers ==> k.validUntil <= t)
  }

  /** Nothing leaks: once the cutoff and the clock have passed everything it records, every valid
      workspace is a candidate, whatever state a crash or a failed step left it in. */
  lemma NothingLeaks(w: Workspace, cutoff: int, now: int)
    requires ValidWorkspace(w) && RecordedBy(w, cutoff) && RecordedBy(w, now)
    ensures Classify(w, cutoff, now, true).Ok? && Classify(w, cutoff, now, true).value.Some?
  {
    CandidateUnlessProtected(w, cutoff, now);
  }

  const ZERO_TIME := -62_135_596_800_000

  function PathOf(c: Candidate): string { c.workspace.path }

  ghost predicate Selected(c: Candidate, s: State, cutoff: int, now: int, includeAbandoned: bool) {
    && c.workspace.path in s.workspaces && s.workspaces[c.workspace.path] == c.workspace
    && Classify(c.workspace, cutoff, now, includeAbandoned) == Ok(Some(c.reason))
  }

  ghost predicate Unclassifiable(s: State, cutoff: int, now: int, includeAbandoned: bool) {
    exists p :: p in s.workspaces && Classify(s.workspaces[p], cutoff, now, includeAbandoned).Err?
  }

  lemma ValidStatesAreClassifiable(s: State, cutoff: int, now: int)
    requires ValidState(s)
    ensures !Unclassifiable(s, cutoff, now, true)
  {
    forall p | p in s.workspaces ensures Classify(s.workspaces[p], cutoff, now, true).Ok? {
      CandidateUnlessProtected(s.workspaces[p], cutoff, now);
    }
  }

  /** The plan names every candidate once, in path order, and nothing else. */
  method IdentifyGCCandidates(s: State, cutoff: int, now: int, includeAbandoned: bool)
    returns (plan: Result<seq<Candidate>, Refusal>)
    requires forall p :: p in s.workspaces ==> s.workspaces[p].path == p
    ensures plan.Err? <==> cutoff == ZERO_TIME || now == ZERO_TIME || Unclassifiable(s, cutoff, now, includeAbandoned)
    ensures plan.Ok? ==> forall c :: c in plan.value <==> Selected(c, s, cutoff, now, includeAbandoned)
    ensures plan.Ok? ==> forall i, j :: 0 <= i < j < |plan.value| ==> Below(PathOf(plan.value[i]), PathOf(plan.value[j]))
  {
    if cutoff == ZERO_TIME || now == ZERO_TIME { return Err(BadInput); }
    var result: seq<Candidate> := [];
    var todo := s.workspaces.Keys;
    while todo != {}
      invariant todo <= s.workspaces.Keys
      invariant forall p :: p in s.workspaces && p !in todo ==> Classify(s.workspaces[p], cutoff, now, includeAbandoned).Ok?
      invariant forall c :: c in result <==> c.workspace.path !in todo && Selected(c, s, cutoff, now, includeAbandoned)
      invariant Sorting.DistinctKeys(result, PathOf)
    {
      var p :| p in todo;
      var reason := Classify(s.workspaces[p], cutoff, now, includeAbandoned);
      if reason.Err? { return Err(reason.error); }
      ghost var before := result;
      if reason.value.Some? { result := result + [Candidate(s.workspaces[p], reason.value.value)]; }
      forall c ensures c in result <==> c in before || (reason.value.Some? && c == Candidate(s.workspaces[p], reason.value.value)) {}
      todo := todo - {p};
    }
    Sorting.SortIsStrict(result, PathOf);
    Sorting.SortKeepsElements(result, PathOf);
    plan := Ok(Sorting.Sort(result, PathOf));
  }
}
