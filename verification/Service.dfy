/**
 The lifecycle service over one repository's document (internal/lifecycle, internal/state/store.go):
 each call finds its record, edits it, checks the whole document and only then replaces it. Every
 call does exactly what Lifecycle.Apply says of it, and a refused call leaves the document alone.
 */
module Service {
  import opened Common
  import opened RukState
  import opened Transitions
  import opened Lifecycle
  import opened Decode
  import Effects
  import Text

  /** The document after a call, and the refusal it reports, are those of the specification. */
  ghost predicate Follows(before: State, c: Command, env: Env, after: State, refusal: Option<Refusal>) {
    var next := Apply(before, c, env);
    if next.Ok? then after == next.value && refusal == None else after == before && refusal == Some(next.error)
  }

  /** Assigned, under the first drawn identifier and marked with the second, to the owner and host the input
      names, from now until the end it asks for. */
  predicate HandedTo(w: Workspace, input: AssignmentInput, env: Env) {
    && w.lifecycle.Assigned? && w.operation == Some(env.second) && w.assignment.Some?
    && w.assignment.value.id == env.first && w.assignment.value.assignedAt == env.now
    && w.assignment.value.owner == input.owner && w.assignment.value.hostname == input.hostname
    && w.assignment.value.expiresAt == if input.lease > 0 then env.now + input.lease else input.expiresAt
  }

  /** The record reservation picks does not depend on the order records are visited in. */
  lemma OldestIsUnique(ws: map<Path, Workspace>, requested: Option<Path>, p: Path, q: Path)
    requires Oldest(ws, requested, p) && Oldest(ws, requested, q)
    ensures p == q
  {
    assert NotAfter(ws, p, q) && NotAfter(ws, q, p);
    Text.BelowTotal(p, q);
  }

  /** A reservation is the taking of the oldest eligible record. */
  lemma ReservingTakesTheOldest(ws: map<Path, Workspace>, requested: Option<Path>, p: Path, input: AssignmentInput, env: Env)
    requires GoodInput(input) && Oldest(ws, requested, p)
    ensures Decide(ws, Command.Reserve(requested, input), env) == OnRecord(ws, p, TakeAvailable(input), env)
  {
    forall q | Oldest(ws, requested, q) ensures q == p { OldestIsUnique(ws, requested, q, p); }
  }

  lemma TakenIsHanded(w: Workspace, input: AssignmentInput, env: Env)
    requires Edited(w, TakeAvailable(input), env).Ok?
    ensures var taken := Edited(w, TakeAvailable(input), env).value;
            HandedTo(taken, input, env) && (input.branch != "" ==> taken.branch == input.branch)
  {
    Effects.HandingOutWritesTheInput(w, TakeAvailable(input), env);
  }

  lemma HolderIsUnique(ws: map<Path, Workspace>, id: Id, p: Path)
    requires DistinctAssignments(ws) && p in ws && ws[p].Carries(id)
    ensures Holder(ws, id) == Some(p)
  {
    assert SameAssignment(ws[p], ws[Holder(ws, id).value]);
  }

  lemma NotAfterTransitive(ws: map<Path, Workspace>, p: Path, q: Path, r: Path)
    requires p in ws && q in ws && r in ws && NotAfter(ws, p, q) && NotAfter(ws, q, r)
    ensures NotAfter(ws, p, r)
  {
    if AvailableSince(ws[p]) == AvailableSince(ws[r]) && Text.Below(r, p) {
      Text.BelowTotal(p, q);
      Text.BelowTotal(q, r);
      if p != q { Text.BelowTransitive(r, p, q); }
    }
  }

  lemma NotAfterTotal(ws: map<Path, Workspace>, p: Path, q: Path)
    requires p in ws && q in ws
    ensures NotAfter(ws, p, q) || NotAfter(ws, q, p)
  {
    if Text.Below(p, q) && Text.Below(q, p) {
      Text.BelowTransitive(p, q, p);
      Text.BelowIrreflexive(p);
    }
  }

  method FindAssignment(ws: map<Path, Workspace>, id: Id) returns (p: Option<Path>)
    requires DistinctAssignments(ws)
    ensures p == Holder(ws, id)
  {
    var todo := ws.Keys;
    while todo != {}
      invariant todo <= ws.Keys
      invariant forall q :: q in ws && q !in todo ==> !ws[q].Carries(id)
    {
      var q :| q in todo;
      if ws[q].Carries(id) {
        HolderIsUnique(ws, id, q);
        return Some(q);
      }
      todo := todo - {q};
    }
    p := None;
  }

  /** The first of the eligible records, oldest first and then by path. */
  method FindOldest(ws: map<Path, Workspace>, requested: Option<Path>) returns (p: Option<Path>)
    ensures p.Some? ==> Oldest(ws, requested, p.value)
    ensures p.None? ==> forall q :: !Wanted(ws, requested, q)
    ensures p.Some? ==> ws[p.value].lifecycle.Available? && ws[p.value].operation == None && (requested.Some? ==> p == requested)
    ensures p.Some? && ws[p.value].availableAt.Some? ==>
              forall q: Path :: Wanted(ws, requested, q) && ws[q].availableAt.Some? ==>
                || ws[p.value].availableAt.value < ws[q].availableAt.value
                || (ws[p.value].availableAt == ws[q].availableAt && (p.value == q || Text.Below(p.value, q)))
  {
    p := None;
    var todo := ws.Keys;
    while todo != {}
      invariant todo <= ws.Keys
      invariant p.Some? ==> p.value !in todo && Wanted(ws, requested, p.value)
      invariant p.Some? ==> forall q :: q !in todo && Wanted(ws, requested, q) ==> NotAfter(ws, p.value, q)
      invariant p.None? ==> forall q :: q !in todo ==> !Wanted(ws, requested, q)
    {
      var q :| q in todo;
      todo := todo - {q};
      if Wanted(ws, requested, q) {
        if p.None? || !NotAfter(ws, p.value, q) {
          if p.Some? {
            NotAfterTotal(ws, p.value, q);
            forall r | r !in todo && Wanted(ws, requested, r) ensures NotAfter(ws, q, r) {
              if r == q { NotAfterTotal(ws, q, q); } else { NotAfterTransitive(ws, q, p.value, r); }
            }
          } else {
            NotAfterTotal(ws, q, q);
          }
          p := Some(q);
        }
      }
    }
    if p.Some? {
      forall q: Path ensures p.value == q || Text.Below(p.value, q) || Text.Below(q, p.value) { Text.BelowTotal(p.value, q); }
    }
  }

  lemma MarkedIsHanded(w: Workspace, e: Edit, env: Env)
    requires e.MarkAssigned? && Edited(w, e, env).Ok?
    ensures HandedTo(Edited(w, e, env).value, e.input, env)
  {
    Effects.HandingOutWritesTheInput(w, e, env);
  }

  class Repository {
    var trees: map<Path, Tree>
    var workspaces: map<Path, Workspace>
    var metrics: Metrics

    function Document(): State
      reads this
    {
      State(trees, workspaces, metrics)
    }

    ghost predicate Valid()
      reads this
    {
      ValidState(Document())
    }

    constructor ()
      ensures Valid() && Document() == EMPTY_STATE
    {
      trees, workspaces, metrics := map[], map[], EMPTY_STATE.metrics;
    }

    /** Checks the mutated document and, if it is valid, replaces the stored one. */
    method Commit(next: State) returns (refusal: Option<Refusal>)
      modifies this
      ensures refusal == if ValidState(next) then None else Some(Unencodable)
      ensures Document() == if refusal.None? then next else old(Document())
    {
      var valid := CheckState(next);
      if !valid { return Some(Unencodable); }
      trees, workspaces, metrics := next.trees, next.workspaces, next.metrics;
      refusal := None;
    }

    /** Stores the outcome of one edit, counting what it says was counted. */
    method Store(c: Command, p: Path, edited: Outcome) returns (refusal: Option<Refusal>)
      modifies this
      ensures edited.Err? ==> refusal == Some(edited.error) && Document() == old(Document())
      ensures edited.Ok? ==>
                var next := State(Trees(old(trees), c), old(workspaces)[p := edited.value], Count(old(metrics), c));
                && refusal == (if ValidState(next) then None else Some(Unencodable))
                && Document() == if ValidState(next) then next else old(Document())
    {
      if edited.Err? { return Some(edited.error); }
      refusal := Commit(State(Trees(trees, c), workspaces[p := edited.value], Count(metrics, c)));
    }

    method BeginPreparation(p: Path, branch: string, env: Env) returns (refusal: Option<Refusal>)
      requires Valid()
      modifies this
      ensures Valid() && Follows(old(Document()), Command.BeginPreparation(p, branch), env, Document(), refusal)
    {
      if branch == "" { return Some(BadInput); }
      if p in workspaces { return Some(AlreadyManaged); }
      refusal := Store(Command.BeginPreparation(p, branch), p, Ok(Prepared(p, branch, env)));
    }

    /** The calls addressed by path: finishing a preparation, publishing it, installer tracking, and
        the collection calls. A preparation is published for exactly the owner and host given. */
    method UpdateAt(p: Path, e: Edit, env: Env) returns (refusal: Option<Refusal>)
      requires Valid()
      modifies this
      ensures Valid() && Follows(old(Document()), At(p, e), env, Document(), refusal)
      ensures refusal.None? ==> p in old(workspaces) && Effects.Accepts(old(workspaces)[p], e, env)
      ensures refusal.None? && e.MarkAssigned? ==> p in workspaces && HandedTo(workspaces[p], e.input, env)
    {
      if !PathEdit(e) { return Some(BadInput); }
      if p !in workspaces { return Some(NotManaged); }
      Effects.AcceptedExactlyWhen(workspaces[p], e, env);
      refusal := Store(At(p, e), p, Edited(workspaces[p], e, env));
      if refusal.None? && e.MarkAssigned? { MarkedIsHanded(old(workspaces)[p], e, env); }
    }

    /** The calls addressed by assignment: renewal, activity, processes, returns, and the end of an
        acquisition. Ports are published by the port allocator. */
    method UpdateFor(id: Id, e: Edit, env: Env) returns (refusal: Option<Refusal>)
      requires Valid() && !e.PublishPorts?
      modifies this
      ensures Valid() && Follows(old(Document()), For(id, e), env, Document(), refusal)
      ensures refusal.None? ==> exists p :: p in old(workspaces) && old(workspaces)[p].Carries(id) && Effects.Accepts(old(workspaces)[p], e, env)
    {
      if !AssignmentEdit(e) { return Some(BadInput); }
      var p := FindAssignment(workspaces, id);
      if p.None? { return Some(UnknownAssignment); }
      Effects.AcceptedExactlyWhen(workspaces[p.value], e, env);
      refusal := Store(For(id, e), p.value, Edited(workspaces[p.value], e, env));
    }

    method Take(requested: Option<Path>, p: Path, input: AssignmentInput, env: Env) returns (refusal: Option<Refusal>, result: Option<Workspace>)
      requires Valid() && GoodInput(input) && Oldest(workspaces, requested, p)
      modifies this
      ensures Valid() && Follows(old(Document()), Command.Reserve(requested, input), env, Document(), refusal)
      ensures result.Some? <==> refusal.None?
      ensures result.Some? ==> p in workspaces && workspaces[p] == result.value && HandedTo(result.value, input, env)
      ensures result.Some? && input.branch != "" ==> result.value.branch == input.branch
    {
      ReservingTakesTheOldest(workspaces, requested, p, input, env);
      var taken := Edited(workspaces[p], TakeAvailable(input), env);
      refusal := Store(Command.Reserve(requested, input), p, taken);
      if refusal.Some? { return refusal, None; }
      TakenIsHanded(old(workspaces)[p], input, env);
      result := Some(taken.value);
    }

    /** Hands out the oldest available workspace, if there is one, to the owner and host given, until the
        end given, on the branch given, if any. */
    method Reserve(requested: Option<Path>, input: AssignmentInput, env: Env) returns (refusal: Option<Refusal>, result: Option<Workspace>)
      requires Valid()
      modifies this
      ensures Valid() && Follows(old(Document()), Command.Reserve(requested, input), env, Document(), refusal)
      ensures result.Some? ==> refusal.None? && exists p :: Oldest(old(workspaces), requested, p) && p in workspaces && workspaces[p] == result.value
      ensures result.Some? ==> HandedTo(result.value, input, env)
      ensures result.Some? && input.branch != "" ==> result.value.branch == input.branch
      ensures result.None? && refusal.None? ==> Document() == old(Document()) && forall p :: !Wanted(workspaces, requested, p)
    {
      if !GoodInput(input) { return Some(BadInput), None; }
      var p := FindOldest(workspaces, requested);
      if p.None? {
        return None, None;
      }
      refusal, result := Take(requested, p.value, input, env);
    }

    method DeleteRecord(p: Path, operation: Id, env: Env) returns (refusal: Option<Refusal>)
      requires Valid()
      modifies this
      ensures Valid() && Follows(old(Document()), Command.DeleteRecord(p, operation), env, Document(), refusal)
    {
      if p !in workspaces { return Some(NotManaged); }
      var w := workspaces[p];
      if w.Owned() || w.lifecycle.Preparing? { return Some(WrongLifecycle); }
      if w.assignment.Some? || w.processes != [] { return Some(ProcessesRemain); }
      if w.operation != Some(operation) { return Some(OperationMismatch); }
      refusal := Commit(State(trees, workspaces - {p}, metrics));
    }

    /** The calls that touch no workspace: preparation counters and dependency trees. */
    method Record(c: Command, env: Env) returns (refusal: Option<Refusal>)
      requires Valid() && (c.RecordMetric? || c.PutTree? || c.DropTree?)
      modifies this
      ensures Valid() && Follows(old(Document()), c, env, Document(), refusal)
    {
      refusal := Commit(State(Trees(trees, c), workspaces, Count(metrics, c)));
    }
  }

  /** One lifecycle call, and the document it leaves. */
  method Carry(repository: Repository, c: Command, env: Env) returns (ok: bool, ghost next: Result<State, Refusal>)
    requires repository.Valid() && c.For? && !c.edit.PublishPorts?
    modifies repository
    ensures repository.Valid()
    ensures next == Apply(old(repository.Document()), c, env) && ok == next.Ok?
    ensures repository.Document() == if ok then next.value else old(repository.Document())
  {
    next := Apply(repository.Document(), c, env);
    var refusal := repository.UpdateFor(c.id, c.edit, env);
    ok := refusal.None?;
  }
}
