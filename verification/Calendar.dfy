/**
 When the timestamps and counters a lifecycle call writes can be represented, told from its arguments,
 the clock and the record it finds: the range half of the encode-time check (internal/state/decode.go).
 */
module Calendar {
  import opened Common
  import opened RukState
  import opened Transitions
  import opened Validity

  predicate NextFits(w: Workspace, env: Env) { ValidTimestamp(NextTimestamp(w.updatedAt, env.now)) }

  /** A duration is checked against the calendar by the call itself; an end given outright is not. */
  predicate InputFits(input: AssignmentInput, env: Env) {
    ValidTimestamp(env.now) && (input.lease <= 0 ==> input.expiresAt <= MAX_TIME)
  }

  predicate ActivityFits(w: Workspace, env: Env, keeperLength: int) {
    w.assignment.Some? ==>
      Later(env.now, w.assignment.value.renewedAt) + w.assignment.value.lease <= MAX_TIME &&
      Later(env.now, w.assignment.value.renewedAt) + keeperLength <= MAX_TIME
  }

  /** What the caller of an accepted call could have checked beforehand. */
  predicate Fits(w: Workspace, e: Edit, env: Env) {
    match e
    case FinishPreparation(_, _, _) => NextFits(w, env)
    case MarkAssigned(_, input) => InputFits(input, env)
    case TakeAvailable(input) => InputFits(input, env)
    case Retain(_, _, _) => NextFits(w, env)
    case RefreshLease(_, _, _, _) => true
    case Renew(expiresAt, seen) =>
      expiresAt <= MAX_TIME || (w.assignment.Some? && seen.Some? && w.assignment.value.renewedAt != seen.value)
    case BeginActivity(_, nanoseconds) => ActivityFits(w, env, nanoseconds / 1_000_000)
    case RefreshActivity(_, validUntil) => ActivityFits(w, env, validUntil - env.now)
    case FinishActivity(_) => ActivityFits(w, env, 0)
    case TrackInstaller(_, record) => FindPid(w.processes, record.pid) < |w.processes| || NextFits(w, env)
    case UntrackInstaller(_, _, _) => NextFits(w, env)
    case BeginReturn(_, _, _) => w.lifecycle.Returning? || ValidTimestamp(env.now)
    case BeginCollection(_) => (!w.lifecycle.Preparing? && w.operation.Some?) || ValidTimestamp(env.now)
    case PublishPorts(_) => true
    case _ => ValidTimestamp(env.now)
  }

  ghost predicate KeepersInCalendar(keepers: seq<Keeper>) {
    forall k :: k in keepers ==> ValidTimestamp(k.heartbeatAt) && ValidTimestamp(k.validUntil)
  }

  predicate SoundLease(w: Workspace) {
    w.assignment.Some? ==> w.assignment.value.lease > 0 && w.assignment.value.renewedAt < w.assignment.value.expiresAt
  }

  lemma ActivityInCalendar(w: Workspace, keepers: seq<Keeper>, at: int, saturates: bool)
    requires InCalendar(w) && w.assignment.Some? && at >= w.assignment.value.renewedAt
    requires RecordActivity(w, w.assignment.value.(keepers := keepers), at, saturates).Ok?
    ensures InCalendar(RecordActivity(w, w.assignment.value.(keepers := keepers), at, saturates).value) <==>
              at + w.assignment.value.lease <= MAX_TIME && KeepersInCalendar(keepers)
  {
    var a' := w.assignment.value.(keepers := keepers);
    var w' := WithLease(w, a', at, at + a'.lease, a'.lease, a'.saturated);
    assert RecordActivity(w, a', at, saturates) == Ok(w');
    assert w'.assignment.value.keepers == keepers;
  }

  lemma BeginFits(w: Workspace, keeper: Id, nanoseconds: int, env: Env)
    requires InCalendar(w) && EditBeginActivity(w, keeper, nanoseconds, env).Ok?
    ensures InCalendar(EditBeginActivity(w, keeper, nanoseconds, env).value) <==> Fits(w, BeginActivity(keeper, nanoseconds), env)
  {
    var a := w.assignment.value;
    var at := Later(env.now, a.renewedAt);
    var added := Keeper(keeper, at, at + nanoseconds / 1_000_000);
    var keepers := ActiveKeepers(a.keepers, at, None) + [added];
    ActiveKeepersAre(a.keepers, at, None);
    assert added in keepers;
    ActivityInCalendar(w, keepers, at, env.saturates);
  }

  lemma RefreshedInCalendar(keepers: seq<Keeper>, keeper: Id, at: int, duration: int)
    requires KeepersInCalendar(keepers) && HasKeeper(keepers, keeper) && ValidTimestamp(at) && duration > 0
    ensures KeepersInCalendar(RefreshedKeepers(keepers, keeper, at, duration)) <==> at + duration <= MAX_TIME
  {
    var beaten := Beaten(keepers, keeper, at, at + duration);
    BeatenAre(keepers, keeper, at, at + duration);
    ActiveKeepersAre(beaten, at, Some(keeper));
    forall k | k in beaten && at + duration <= MAX_TIME ensures ValidTimestamp(k.heartbeatAt) && ValidTimestamp(k.validUntil) {
      var i :| 0 <= i < |beaten| && beaten[i] == k;
      assert keepers[i] in keepers;
    }
    var i :| 0 <= i < |keepers| && keepers[i].id == keeper;
    assert beaten[i] in beaten && beaten[i].validUntil >= at + duration;
    assert beaten[i] in RefreshedKeepers(keepers, keeper, at, duration);
  }

  lemma RefreshFits(w: Workspace, keeper: Id, validUntil: int, env: Env)
    requires InCalendar(w) && SoundLease(w) && EditRefreshActivity(w, keeper, validUntil, env).Ok?
    ensures InCalendar(EditRefreshActivity(w, keeper, validUntil, env).value) <==> Fits(w, RefreshActivity(keeper, validUntil), env)
  {
    var a := w.assignment.value;
    var at := Later(env.now, a.renewedAt);
    ActivityInCalendar(w, RefreshedKeepers(a.keepers, keeper, at, validUntil - env.now), at, env.saturates);
    if at + a.lease <= MAX_TIME { RefreshedInCalendar(a.keepers, keeper, at, validUntil - env.now); }
  }

  lemma FinishFits(w: Workspace, keeper: Id, env: Env)
    requires InCalendar(w) && SoundLease(w) && EditFinishActivity(w, keeper, env).Ok?
    ensures InCalendar(EditFinishActivity(w, keeper, env).value) <==> Fits(w, FinishActivity(keeper), env)
  {
    var a := w.assignment.value;
    var at := Later(env.now, a.renewedAt);
    OtherKeepersAre(a.keepers, keeper, at);
    ActivityInCalendar(w, OtherKeepers(a.keepers, keeper, at), at, env.saturates);
  }

  predicate Beats(e: Edit) { e.BeginActivity? || e.RefreshActivity? || e.FinishActivity? }

  lemma LeaseEditFits(w: Workspace, e: Edit, env: Env)
    requires InCalendar(w) && SoundLease(w) && Edited(w, e, env).Ok? && (e.RefreshLease? || e.Renew? || e.MarkAssigned? || e.TakeAvailable?)
    ensures InCalendar(Edited(w, e, env).value) <==> Fits(w, e, env)
  {
  }

  lemma OtherEditFits(w: Workspace, e: Edit, env: Env)
    requires InCalendar(w) && Edited(w, e, env).Ok? && !Beats(e)
    requires !e.RefreshLease? && !e.Renew? && !e.MarkAssigned? && !e.TakeAvailable?
    ensures InCalendar(Edited(w, e, env).value) <==> Fits(w, e, env)
  {
  }

  /** An accepted call on a representable record writes a representable record exactly when it fits. */
  lemma EditStaysInCalendarExactlyWhenItFits(w: Workspace, e: Edit, env: Env)
    requires InCalendar(w) && SoundLease(w) && Edited(w, e, env).Ok?
    ensures InCalendar(Edited(w, e, env).value) <==> Fits(w, e, env)
  {
    match e
    case BeginActivity(keeper, nanoseconds) => BeginFits(w, keeper, nanoseconds, env);
    case RefreshActivity(keeper, validUntil) => RefreshFits(w, keeper, validUntil, env);
    case FinishActivity(keeper) => FinishFits(w, keeper, env);
    case RefreshLease(_, _, _, _) => LeaseEditFits(w, e, env);
    case Renew(_, _) => LeaseEditFits(w, e, env);
    case MarkAssigned(_, _) => LeaseEditFits(w, e, env);
    case TakeAvailable(_) => LeaseEditFits(w, e, env);
    case _ => OtherEditFits(w, e, env);
  }
}
