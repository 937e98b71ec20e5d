/** Leases move forward over whole runs, on any clock. */
module Leases {
  import opened Common
  import opened RukState
  import opened Transitions
  import opened Validity
  import opened Lifecycle
  import opened Fences
  import opened Ownership

  predicate Heartbeat(e: Edit) { e.BeginActivity? || e.RefreshActivity? || e.FinishActivity? }

  /** A lease ends one lease duration after its last renewal, unless that duration was too long for
      the clock arithmetic to hold and was recorded as the longest one. */
  predicate LeaseOk(a: Assignment) {
    && (a.saturated ==> a.lease == MAX_DURATION)
    && (a.expiresAt == a.renewedAt + a.lease || (a.saturated && a.expiresAt > a.renewedAt + a.lease))
  }

  ghost predicate LeasesOk(world: World) {
    forall p :: p in world.state.workspaces && world.state.workspaces[p].assignment.Some? ==>
      LeaseOk(world.state.workspaces[p].assignment.value)
  }

  predicate SameLease(a: Assignment, b: Assignment) {
    a.renewedAt == b.renewedAt && a.expiresAt == b.expiresAt && a.lease == b.lease && a.saturated == b.saturated
  }

  /** What one call does to the lease of the assignment it finds. */
  lemma LeaseEdit(w: Workspace, e: Edit, env: Env)
    requires w.assignment.Some? && w.Owned() && Edited(w, e, env).Ok? && SameAssignment(w, Edited(w, e, env).value)
    requires !Publishes(e)
    ensures var a, b := w.assignment.value, Edited(w, e, env).value.assignment.value;
            && b.renewedAt >= a.renewedAt
            && b.assignedAt == a.assignedAt
            && (LeaseOk(a) ==> LeaseOk(b))
            && (Heartbeat(e) ==>
                  && b.lease == a.lease && b.saturated == a.saturated
                  && b.renewedAt == Later(env.now, a.renewedAt) && b.expiresAt == b.renewedAt + b.lease)
            && ((e.Renew? || e.RefreshLease?) && !SameLease(a, b) ==> b.renewedAt > a.renewedAt)
            && (!Heartbeat(e) && !e.Renew? && !e.RefreshLease? ==> SameLease(a, b))
  {
  }

  /** A restarted lease runs for its full length from no earlier than now; an explicit renewal ends
      exactly when it was asked to. Either is skipped, changing nothing, exactly when the renewal time it
      expected has been overtaken. */
  lemma RenewalsAreExact(w: Workspace, e: Edit, env: Env)
    requires w.assignment.Some? && Edited(w, e, env).Ok? && (e.Renew? || e.RefreshLease?)
    ensures var a, w' := w.assignment.value, Edited(w, e, env).value;
            && w'.assignment.Some?
            && (w' == w <==> (e.Renew? && e.seenRenewedAt.Some? && e.seenRenewedAt.value != a.renewedAt)
                             || (e.RefreshLease? && (e.expectedRenewedAt != a.renewedAt || e.expectedExpiresAt != a.expiresAt)))
            && (w' != w ==>
                  var b := w'.assignment.value;
                  && b.renewedAt >= env.now && b.lastActivityAt == b.renewedAt == w'.updatedAt
                  && (e.Renew? ==> b.expiresAt == e.expiresAt)
                  && (e.RefreshLease? ==> b.expiresAt - b.renewedAt == e.lease == b.lease))
  {
  }

  /** An accepted heartbeat moves an expiry earlier exactly when the lease is recorded as the longest
      duration while more than that is left of it, which takes a lease of over 292 years given by its
      end. Every other lease only moves forward. */
  lemma HeartbeatShortensExactlyWhenSaturated(w: Workspace, e: Edit, env: Env)
    requires w.assignment.Some? && w.Owned() && Heartbeat(e) && Edited(w, e, env).Ok? && LeaseOk(w.assignment.value)
    ensures var a, b := w.assignment.value, Edited(w, e, env).value.assignment.value;
            b.expiresAt < a.expiresAt <==> a.saturated && a.expiresAt - Later(env.now, a.renewedAt) > MAX_DURATION
    ensures !w.assignment.value.saturated ==>
              Edited(w, e, env).value.assignment.value.expiresAt >= w.assignment.value.expiresAt
  {
    LeaseEdit(w, e, env);
  }

  /** A heartbeat on such a lease is refused or shortens it, and which of the two is up to the platform:
      without a conversion that saturates, every heartbeat on it is refused. */
  lemma SaturatedHeartbeatIsRefusedOrShortens(w: Workspace, e: Edit, env: Env)
    requires w.assignment.Some? && w.Owned() && Heartbeat(e) && LeaseOk(w.assignment.value)
    requires w.assignment.value.expiresAt - Later(env.now, w.assignment.value.renewedAt) > MAX_DURATION
    ensures Edited(w, e, env).Err? || Edited(w, e, env).value.assignment.value.expiresAt < w.assignment.value.expiresAt
    ensures !env.saturates ==> Edited(w, e, env).Err?
  {
    if Edited(w, e, env).Ok? { LeaseEdit(w, e, env); }
  }

  /** Such a lease: assigned until well over 292 years from now, then the same heartbeat on either kind
      of platform. */
  lemma SomeHeartbeatIsRefusedOrShortens(w: Workspace, record: Assignment)
    requires w.lifecycle.Assigned? && w.assignment == Some(record)
    requires record.renewedAt == 0 && record.expiresAt == 10_000_000_000_000 && record.lease == MAX_DURATION && record.saturated
    requires record.keepers == []
    ensures var r := Edited(w, BeginActivity(7, 1_000_000), Env(5, 1, 2, true));
            r.Ok? && r.value.assignment.value.expiresAt < record.expiresAt
    ensures Edited(w, BeginActivity(7, 1_000_000), Env(5, 1, 2, false)) == Err(Unencodable)
  {
  }

  /** An assignment that survives a step stays on its path. */
  lemma AssignmentStaysPut(world: World, c: Command, env: Env, p: Path, id: Id)
    requires WorldOk(world) && FreshIds(world, env)
    requires p in world.state.workspaces && world.state.workspaces[p].Carries(id)
    requires Present(Step(world, c, env), id)
    ensures p in Step(world, c, env).state.workspaces && Step(world, c, env).state.workspaces[p].Carries(id)
  {
    var ws, ws' := world.state.workspaces, Step(world, c, env).state.workspaces;
    var q :| q in ws' && ws'[q].Carries(id);
    if q in ws {
      RecordStep(world, c, env, q);
      if ws'[q] != ws[q] { EditIdentifiers(ws[q], EditOf(c).value, env); }
      assert SameAssignment(ws[p], ws[q]);
    } else {
      DecisionShape(ws, c, env);
    }
  }

  lemma LeaseStep(world: World, c: Command, env: Env, p: Path, id: Id)
    requires WorldOk(world) && FreshIds(world, env)
    requires p in world.state.workspaces && world.state.workspaces[p].Carries(id)
    requires Present(Step(world, c, env), id)
    ensures var ws, ws' := world.state.workspaces, Step(world, c, env).state.workspaces;
            && p in ws' && ws'[p].Carries(id)
            && ws'[p].assignment.value.renewedAt >= ws[p].assignment.value.renewedAt
  {
    var ws, ws' := world.state.workspaces, Step(world, c, env).state.workspaces;
    AssignmentStaysPut(world, c, env, p, id);
    RecordStep(world, c, env, p);
    if ws'[p] != ws[p] {
      EditIdentifiers(ws[p], EditOf(c).value, env);
      LeaseEdit(ws[p], EditOf(c).value, env);
    }
  }

  /** RenewedAt never goes back while an assignment lives, and the assignment never moves. */
  lemma {:induction false} RenewedAtNeverGoesBack(world: World, events: seq<Event>, p: Path, id: Id)
    requires WorldOk(world) && CanRun(world, events)
    requires p in world.state.workspaces && world.state.workspaces[p].Carries(id) && Present(Run(world, events), id)
    ensures var ws' := Run(world, events).state.workspaces;
            && p in ws' && ws'[p].Carries(id)
            && ws'[p].assignment.value.renewedAt >= world.state.workspaces[p].assignment.value.renewedAt
    decreases events
  {
    if events != [] {
      var next := Step(world, events[0].command, events[0].env);
      StepKeepsWorldOk(world, events[0].command, events[0].env);
      if !Present(next, id) { GoneStaysGone(next, events[1..], id); }
      LeaseStep(world, events[0].command, events[0].env, p, id);
      RenewedAtNeverGoesBack(next, events[1..], p, id);
    }
  }

  /** An explicit renewal that lands while an acquisition is being prepared survives: the later
      restart of the lease clock, fenced by what was published, changes nothing. */
  lemma ExplicitRenewalSurvivesAcquisition(world: World, before: seq<Event>, renewal: Event, after: seq<Event>, p: Path, id: Id, o: Id, lease: int, env: Env)
    requires WorldOk(world) && p in world.state.workspaces && world.state.workspaces[p].Carries(id)
    requires CanRun(world, before) && FreshIds(Run(world, before), renewal.env)
    requires var mid := Run(world, before);
             Present(mid, id) && renewal.command.For? && renewal.command.id == id && renewal.command.edit.Renew? &&
             Step(mid, renewal.command, renewal.env).state != mid.state
    requires var renewed := Step(Run(world, before), renewal.command, renewal.env);
             CanRun(renewed, after) && Present(Run(renewed, after), id)
    ensures var published := world.state.workspaces[p].assignment.value;
            var last := Run(Step(Run(world, before), renewal.command, renewal.env), after);
            Step(last, For(id, RefreshLease(o, published.renewedAt, published.expiresAt, lease)), env).state == last.state
  {
    var mid := Run(world, before);
    RunKeepsWorldOk(world, before);
    RenewedAtNeverGoesBack(world, before, p, id);
    var renewed := Step(mid, renewal.command, renewal.env);
    StepKeepsWorldOk(mid, renewal.command, renewal.env);
    EffectiveRenewal(mid, renewal.command, renewal.env, p, id);
    RenewedAtNeverGoesBack(renewed, after, p, id);
    RunKeepsWorldOk(renewed, after);
    StaleRestartIsNoOp(Run(renewed, after), p, id, o, world.state.workspaces[p].assignment.value, lease, env);
  }

  lemma EffectiveRenewal(world: World, c: Command, env: Env, p: Path, id: Id)
    requires WorldOk(world) && FreshIds(world, env) && p in world.state.workspaces && world.state.workspaces[p].Carries(id)
    requires c.For? && c.id == id && c.edit.Renew? && Step(world, c, env).state != world.state
    ensures var ws' := Step(world, c, env).state.workspaces;
            && p in ws' && ws'[p].Carries(id) && Present(Step(world, c, env), id)
            && ws'[p].assignment.value.renewedAt > world.state.workspaces[p].assignment.value.renewedAt
  {
    var ws := world.state.workspaces;
    var q := Holder(ws, id).value;
    assert SameAssignment(ws[p], ws[q]);
    assert ws[p := ws[p]] == ws;
    RenewalMovesOn(ws[p], c.edit, env);
  }

  lemma RenewalMovesOn(w: Workspace, e: Edit, env: Env)
    requires w.assignment.Some? && e.Renew?
    ensures var r := Edited(w, e, env);
            r.Ok? && r.value != w ==> SameAssignment(w, r.value) && r.value.assignment.value.renewedAt > w.assignment.value.renewedAt
  {
  }

  lemma StaleRestartIsNoOp(world: World, p: Path, id: Id, o: Id, published: Assignment, lease: int, env: Env)
    requires WorldOk(world) && p in world.state.workspaces && world.state.workspaces[p].Carries(id)
    requires world.state.workspaces[p].assignment.value.renewedAt != published.renewedAt
    ensures Step(world, For(id, RefreshLease(o, published.renewedAt, published.expiresAt, lease)), env).state == world.state
  {
    var ws := world.state.workspaces;
    var q := Holder(ws, id).value;
    assert SameAssignment(ws[p], ws[q]);
    assert ws[p := ws[p]] == ws;
  }

  lemma LeaseAfterStep(world: World, c: Command, env: Env, p: Path)
    requires WorldOk(world) && LeasesOk(world) && FreshIds(world, env) && p in world.state.workspaces
    requires p in Step(world, c, env).state.workspaces && Step(world, c, env).state.workspaces[p].assignment.Some?
    ensures LeaseOk(Step(world, c, env).state.workspaces[p].assignment.value)
  {
    var ws, ws' := world.state.workspaces, Step(world, c, env).state.workspaces;
    RecordStep(world, c, env, p);
    if ws'[p] != ws[p] {
      assert ValidWorkspace(ws[p]);
      var e := EditOf(c).value;
      EditAssignment(ws[p], e, env);
      if Publishes(e) { PublishedLease(ws[p], e, env); } else { LeaseEdit(ws[p], e, env); }
    }
  }

  lemma PublishedLease(w: Workspace, e: Edit, env: Env)
    requires Publishes(e) && Edited(w, e, env).Ok?
    ensures Edited(w, e, env).value.assignment.Some? && LeaseOk(Edited(w, e, env).value.assignment.value)
  {
  }

  lemma LeasesAfterStep(world: World, c: Command, env: Env)
    requires WorldOk(world) && LeasesOk(world) && FreshIds(world, env)
    ensures LeasesOk(Step(world, c, env))
  {
    var ws, ws' := world.state.workspaces, Step(world, c, env).state.workspaces;
    forall p | p in ws' && ws'[p].assignment.Some? ensures LeaseOk(ws'[p].assignment.value) {
      if p in ws { LeaseAfterStep(world, c, env, p); } else { DecisionShape(ws, c, env); }
    }
  }

  /** In every state of every run, each lease ends its own length after its last renewal (or is a
      saturated one). */
  lemma {:induction false} LeasesHoldThroughout(world: World, events: seq<Event>)
    requires WorldOk(world) && LeasesOk(world) && CanRun(world, events)
    ensures LeasesOk(Run(world, events))
    decreases events
  {
    if events != [] {
      LeasesAfterStep(world, events[0].command, events[0].env);
      StepKeepsWorldOk(world, events[0].command, events[0].env);
      LeasesHoldThroughout(Step(world, events[0].command, events[0].env), events[1..]);
    }
  }
}
