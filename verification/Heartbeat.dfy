/**
 Heartbeats keep work alive (internal/cli/activity_runner.go, internal/lifecycle/activity.go,
 internal/lifecycle/gc.go). Intervals are whole nanoseconds, recorded times whole milliseconds; lease
 lengths in minutes are modelled as whole milliseconds, without floating-point rounding.
 */
module Heartbeat {
  import opened Common
  import opened RukState
  import opened Transitions
  import opened Collection
  import opened Lifecycle
  import opened Fences
  import opened Decode
  import opened Service

  const MAX_INTERVAL := 300_000_000_000
  const MILLISECOND := 1_000_000

  /** A third of the lease, at most five minutes. */
  function Interval(lease: int): int
    requires lease > 0
  {
    if lease * MILLISECOND >= MAX_INTERVAL * 3 then MAX_INTERVAL
    else
      var interval := lease * MILLISECOND / 3;
      if interval <= 0 then MILLISECOND else if interval > MAX_INTERVAL then MAX_INTERVAL else interval
  }

  /** What two intervals come to in recorded time. */
  function Window(interval: int): int { interval * 2 / MILLISECOND }

  /** Two intervals always end before the lease they were taken from, and they are long enough to
      record exactly when the lease is at least two milliseconds. */
  lemma WindowWithinLease(lease: int)
    requires lease > 0
    ensures 0 < Interval(lease) <= MAX_INTERVAL
    ensures 0 <= Window(Interval(lease)) < lease
    ensures Window(Interval(lease)) > 0 <==> lease >= 2
  {
  }

  /** The interval is a third of the lease, to within a nanosecond, up to fifteen minutes of it, and five
      minutes from there on. */
  lemma IntervalIsAThird(lease: int)
    requires lease > 0
    ensures lease >= 900_000 ==> Interval(lease) == 300_000_000_000
    ensures lease < 900_000 ==> 3 * Interval(lease) <= lease * 1_000_000 < 3 * Interval(lease) + 3
  {
  }

  // ---------------------------------------------------------------------------------------------
  // Watching one assignment between beats
  // ---------------------------------------------------------------------------------------------

  /** One runner's view: when it last beat, the interval until the next beat, the interval its keeper
      was last extended by, and whether anyone has moved the expiry earlier since. */
  datatype Watch = Watch(record: Workspace, keeper: Id, last: int, interval: int, kept: int, shortened: bool)

  datatype Move = Beat(asked: int, env: Env) | Call(edit: Edit, env: Env)

  predicate Live(w: Workspace) {
    w.lifecycle.Assigned? && w.assignment.Some? && w.assignment.value.renewedAt < w.assignment.value.expiresAt && w.assignment.value.lease > 0
  }

  function Until(x: Watch): int { x.last + Window(x.interval) }

  /** The keeper is registered until then, or the lease was renewed past then. */
  ghost predicate KeptUntil(w: Workspace, keeper: Id, until: int) {
    Live(w) &&
    ((exists k :: k in w.assignment.value.keepers && k.id == keeper && k.validUntil >= until) || w.assignment.value.renewedAt >= until)
  }

  ghost predicate WatchOk(x: Watch) {
    && Live(x.record) && x.interval > 0
    && (x.kept >= x.interval ==> KeptUntil(x.record, x.keeper, Until(x)))
    && (!x.shortened ==> x.record.assignment.value.expiresAt >= Until(x))
  }

  function BeatEdit(x: Watch, asked: int): Edit { RefreshActivity(x.keeper, asked + Window(x.interval)) }

  /** Each beat lands less than two intervals after the last, reading the clock before the service
      does; in between anyone may call anything that leaves the assignment with its owner and this
      keeper registered, with clocks that may run backward. */
  ghost predicate CanMove(x: Watch, m: Move) {
    match m
    case Beat(asked, env) => asked < Until(x) && asked <= env.now && Edited(x.record, BeatEdit(x, asked), env).Ok?
    case Call(e, env) =>
      && env.now < Until(x) && e != FinishActivity(x.keeper) && Edited(x.record, e, env).Ok?
      && SameAssignment(x.record, Edited(x.record, e, env).value) && Live(Edited(x.record, e, env).value)
  }

  ghost function Moved(x: Watch, m: Move): Watch
    requires CanMove(x, m) && WatchOk(x)
  {
    match m
    case Beat(asked, env) =>
      var w := Edited(x.record, BeatEdit(x, asked), env).value;
      Watch(w, x.keeper, asked, Interval(x.record.assignment.value.lease), x.interval, false)
    case Call(e, env) =>
      var w := Edited(x.record, e, env).value;
      x.(record := w, shortened := x.shortened || w.assignment.value.expiresAt < x.record.assignment.value.expiresAt)
  }

  lemma BegunWatchIsOk(w: Workspace, keeper: Id, interval: int, env: Env)
    requires Live(w) && interval > 0 && Edited(w, BeginActivity(keeper, interval * 2), env).Ok?
    ensures var w' := Edited(w, BeginActivity(keeper, interval * 2), env).value;
            WatchOk(Watch(w', keeper, env.now, interval, interval, w'.assignment.value.expiresAt < env.now + Window(interval)))
  {
    var a := w.assignment.value;
    var now := Later(env.now, a.renewedAt);
    var added := Keeper(keeper, now, now + interval * 2 / MILLISECOND);
    var a' := Edited(w, BeginActivity(keeper, interval * 2), env).value.assignment.value;
    assert a'.keepers == ActiveKeepers(a.keepers, now, None) + [added];
    assert added in a'.keepers;
  }

  lemma BeatsExtend(keepers: seq<Keeper>, keeper: Id, now: int, duration: int)
    requires HasKeeper(keepers, keeper)
    ensures exists k :: k in RefreshedKeepers(keepers, keeper, now, duration) && k.id == keeper && k.validUntil >= now + duration
  {
    var i :| 0 <= i < |keepers| && keepers[i].id == keeper;
    var beaten := Beaten(keepers, keeper, now, now + duration);
    BeatenAre(keepers, keeper, now, now + duration);
    ActiveKeepersAre(beaten, now, Some(keeper));
    assert beaten[i] in beaten;
    assert beaten[i] in RefreshedKeepers(keepers, keeper, now, duration);
  }

  lemma BeatEffect(x: Watch, asked: int, env: Env)
    requires WatchOk(x) && CanMove(x, Beat(asked, env))
    ensures var w := Edited(x.record, BeatEdit(x, asked), env).value;
            && KeptUntil(w, x.keeper, asked + Window(x.interval))
            && w.assignment.value.lease == x.record.assignment.value.lease
            && w.assignment.value.expiresAt >= asked + w.assignment.value.lease
  {
    var a := x.record.assignment.value;
    BeatsExtend(a.keepers, x.keeper, Later(env.now, a.renewedAt), asked + Window(x.interval) - env.now);
  }

  lemma KeepersLeftAlone(w: Workspace, e: Edit, env: Env)
    requires Live(w) && Edited(w, e, env).Ok? && SameAssignment(w, Edited(w, e, env).value) && !Publishes(e)
    requires !e.BeginActivity? && !e.RefreshActivity? && !e.FinishActivity?
    ensures var a, a' := w.assignment.value, Edited(w, e, env).value.assignment.value;
            a'.keepers == a.keepers && a'.renewedAt >= a.renewedAt
  {
  }

  /** Someone else's heartbeat keeps every keeper that is still ahead of it. */
  lemma HeartbeatKeeps(w: Workspace, e: Edit, env: Env, k: Keeper)
    requires Live(w) && Edited(w, e, env).Ok? && k in w.assignment.value.keepers
    requires e.BeginActivity? || e.FinishActivity?
    requires k.validUntil > Later(env.now, w.assignment.value.renewedAt) && e != FinishActivity(k.id)
    ensures Edited(w, e, env).value.assignment.Some? && k in Edited(w, e, env).value.assignment.value.keepers
  {
    var a := w.assignment.value;
    var now := Later(env.now, a.renewedAt);
    if e.BeginActivity? { ActiveKeepersAre(a.keepers, now, None); } else { OtherKeepersAre(a.keepers, e.keeper, now); }
  }

  lemma RefreshKeeps(keepers: seq<Keeper>, beating: Id, now: int, duration: int, k: Keeper)
    requires k in keepers && k.validUntil > now
    ensures exists l :: l in RefreshedKeepers(keepers, beating, now, duration) && l.id == k.id && l.validUntil >= k.validUntil
  {
    var i :| 0 <= i < |keepers| && keepers[i] == k;
    var beaten := Beaten(keepers, beating, now, now + duration);
    BeatenAre(keepers, beating, now, now + duration);
    ActiveKeepersAre(beaten, now, Some(beating));
    assert beaten[i] in beaten;
    assert beaten[i] in RefreshedKeepers(keepers, beating, now, duration);
  }

  lemma RefreshIsEdited(w: Workspace, keeper: Id, validUntil: int, env: Env)
    ensures Edited(w, RefreshActivity(keeper, validUntil), env) == EditRefreshActivity(w, keeper, validUntil, env)
  {
  }

  lemma ActivityKeepsKeepers(w: Workspace, a: Assignment, at: int, saturates: bool, keepers: seq<Keeper>)
    requires RecordActivity(w, a, at, saturates).Ok? && a.keepers == keepers
    ensures var w' := RecordActivity(w, a, at, saturates).value; w'.assignment.Some? && w'.assignment.value.keepers == keepers
  {
  }

  lemma BeatRefreshes(w: Workspace, keeper: Id, validUntil: int, env: Env, keepers: seq<Keeper>)
    requires EditRefreshActivity(w, keeper, validUntil, env).Ok? && w.assignment.Some?
    requires keepers == RefreshedKeepers(w.assignment.value.keepers, keeper, Later(env.now, w.assignment.value.renewedAt), validUntil - env.now)
    ensures var w' := EditRefreshActivity(w, keeper, validUntil, env).value;
            w'.assignment.Some? && w'.assignment.value.keepers == keepers
  {
    var now := Later(env.now, w.assignment.value.renewedAt);
    ActivityKeepsKeepers(w, w.assignment.value.(keepers := keepers), now, env.saturates, keepers);
  }

  lemma HeartbeatRenews(w: Workspace, e: Edit, env: Env)
    requires Live(w) && Edited(w, e, env).Ok? && (e.BeginActivity? || e.RefreshActivity? || e.FinishActivity?)
    ensures Edited(w, e, env).value.assignment.Some? && Edited(w, e, env).value.assignment.value.renewedAt == Later(env.now, w.assignment.value.renewedAt)
  {
  }

  lemma StillPublished(w: Workspace, e: Edit, env: Env)
    requires Live(w) && Edited(w, e, env).Ok?
    ensures !Publishes(e)
  {
  }

  /** What a heartbeat of any kind leaves of a keeper that is ahead of it. */
  lemma AheadSurvives(w: Workspace, keeper: Id, until: int, e: Edit, env: Env, k: Keeper)
    requires Live(w) && Edited(w, e, env).Ok? && e != FinishActivity(keeper)
    requires e.BeginActivity? || e.RefreshActivity? || e.FinishActivity?
    requires k in w.assignment.value.keepers && k.id == keeper && k.validUntil >= until
    requires env.now < until && w.assignment.value.renewedAt < until
    ensures Edited(w, e, env).value.assignment.Some?
    ensures exists l :: l in Edited(w, e, env).value.assignment.value.keepers && l.id == keeper && l.validUntil >= until
  {
    HeartbeatRenews(w, e, env);
    if e.RefreshActivity? {
      RefreshIsEdited(w, e.keeper, e.validUntil, env);
      var now, duration := Later(env.now, w.assignment.value.renewedAt), e.validUntil - env.now;
      BeatRefreshes(w, e.keeper, e.validUntil, env, RefreshedKeepers(w.assignment.value.keepers, e.keeper, now, duration));
      RefreshKeeps(w.assignment.value.keepers, e.keeper, now, duration, k);
    } else {
      HeartbeatKeeps(w, e, env, k);
    }
  }

  lemma KeeperSurvives(w: Workspace, keeper: Id, until: int, e: Edit, env: Env)
    requires KeptUntil(w, keeper, until) && env.now < until && e != FinishActivity(keeper)
    requires Edited(w, e, env).Ok? && SameAssignment(w, Edited(w, e, env).value) && Live(Edited(w, e, env).value)
    ensures KeptUntil(Edited(w, e, env).value, keeper, until)
  {
    StillPublished(w, e, env);
    if e.BeginActivity? || e.RefreshActivity? || e.FinishActivity? {
      HeartbeatRenews(w, e, env);
      if w.assignment.value.renewedAt < until {
        var k :| k in w.assignment.value.keepers && k.id == keeper && k.validUntil >= until;
        AheadSurvives(w, keeper, until, e, env, k);
      }
    } else {
      KeepersLeftAlone(w, e, env);
    }
  }

  lemma MoveKeepsWatch(x: Watch, m: Move)
    requires WatchOk(x) && CanMove(x, m)
    ensures WatchOk(Moved(x, m))
  {
    match m
    case Beat(asked, env) =>
      BeatEffect(x, asked, env);
      WindowWithinLease(x.record.assignment.value.lease);
      assert x.interval >= Moved(x, m).interval ==> Window(x.interval) >= Window(Moved(x, m).interval);
    case Call(e, env) =>
      if x.kept >= x.interval { KeeperSurvives(x.record, x.keeper, Until(x), e, env); }
  }

  ghost predicate CanWatch(x: Watch, moves: seq<Move>)
    requires WatchOk(x)
    decreases moves
  {
    moves != [] ==> CanMove(x, moves[0]) && (MoveKeepsWatch(x, moves[0]); CanWatch(Moved(x, moves[0]), moves[1..]))
  }

  ghost function Watched(x: Watch, moves: seq<Move>): (y: Watch)
    requires WatchOk(x) && CanWatch(x, moves)
    ensures WatchOk(y)
    decreases moves
  {
    if moves == [] then x
    else
      MoveKeepsWatch(x, moves[0]);
      Watched(Moved(x, moves[0]), moves[1..])
  }

  predicate ExpiredCandidate(w: Workspace, cutoff: int, now: int) { Classify(w, cutoff, now, true) == Ok(Some(ExpiredAssignment)) }

  lemma KeptIsNoCandidate(w: Workspace, keeper: Id, until: int, cutoff: int, now: int)
    requires KeptUntil(w, keeper, until) && now < until
    ensures !ExpiredCandidate(w, cutoff, now)
  {
    var a := w.assignment.value;
    if a.renewedAt < until {
      var k :| k in a.keepers && k.id == keeper && k.validUntil >= until;
      assert k.validUntil > now;
    }
  }

  /** As long as beats land less than two intervals apart, the assignment is never an expired
      candidate, unless someone moved its expiry earlier after a beat that changed the interval. While
      the interval is unchanged the keeper alone covers the gap, whatever renewals do to the lease. */
  lemma BeatsKeepWorkAlive(x: Watch, moves: seq<Move>, cutoff: int, now: int)
    requires WatchOk(x) && CanWatch(x, moves)
    requires now < Until(Watched(x, moves))
    requires Watched(x, moves).kept >= Watched(x, moves).interval || !Watched(x, moves).shortened
    ensures !ExpiredCandidate(Watched(x, moves).record, cutoff, now)
  {
    var y := Watched(x, moves);
    if y.kept >= y.interval { KeptIsNoCandidate(y.record, y.keeper, Until(y), cutoff, now); }
  }

  /** Only renewals, explicit or of an acquisition, and heartbeats on saturated leases move an expiry
      earlier. */
  lemma OnlyRenewalsShorten(w: Workspace, e: Edit, env: Env)
    requires Live(w) && Edited(w, e, env).Ok? && SameAssignment(w, Edited(w, e, env).value) && !Publishes(e)
    requires Edited(w, e, env).value.assignment.value.expiresAt < w.assignment.value.expiresAt
    ensures e.Renew? || e.RefreshLease? || w.assignment.value.expiresAt > w.assignment.value.renewedAt + w.assignment.value.lease
  {
  }

  /** A beat is accepted exactly when its keeper is still registered, its end is ahead of the clock,
      and the lease can be extended. */
  lemma BeatIsAcceptedExactlyWhen(x: Watch, asked: int, env: Env)
    requires WatchOk(x)
    ensures Edited(x.record, BeatEdit(x, asked), env).Ok? <==>
              && env.now < asked + Window(x.interval) && HasKeeper(x.record.assignment.value.keepers, x.keeper)
              && x.record.assignment.value.lease <= MAX_DURATION && (x.record.assignment.value.saturated ==> env.saturates)
  {
  }

  lemma ForeignRefreshDropsTheLapsed(keepers: seq<Keeper>, beating: Id, now: int, duration: int, k: Keeper)
    requires k in keepers && k.id != beating
    ensures k in RefreshedKeepers(keepers, beating, now, duration) <==> k.validUntil > now
  {
    var i :| 0 <= i < |keepers| && keepers[i] == k;
    var beaten := Beaten(keepers, beating, now, now + duration);
    BeatenAre(keepers, beating, now, now + duration);
    ActiveKeepersAre(beaten, now, Some(beating));
    assert beaten[i] == k;
  }

  /** Another runner's heartbeat drops a keeper exactly when the keeper's time is up by the later of the
      clock and the last renewal. */
  lemma OthersDropExactlyTheLapsed(w: Workspace, e: Edit, env: Env, k: Keeper)
    requires Live(w) && Edited(w, e, env).Ok? && k in w.assignment.value.keepers
    requires e.BeginActivity? || ((e.RefreshActivity? || e.FinishActivity?) && e.keeper != k.id)
    ensures Edited(w, e, env).value.assignment.Some?
    ensures k !in Edited(w, e, env).value.assignment.value.keepers <==> k.validUntil <= Later(env.now, w.assignment.value.renewedAt)
  {
    var a := w.assignment.value;
    var now := Later(env.now, a.renewedAt);
    if e.BeginActivity? {
      ActiveKeepersAre(a.keepers, now, None);
    } else if e.FinishActivity? {
      OtherKeepersAre(a.keepers, e.keeper, now);
    } else {
      RefreshIsEdited(w, e.keeper, e.validUntil, env);
      BeatRefreshes(w, e.keeper, e.validUntil, env, RefreshedKeepers(a.keepers, e.keeper, now, e.validUntil - env.now));
      ForeignRefreshDropsTheLapsed(a.keepers, e.keeper, now, e.validUntil - env.now, k);
    }
  }

  function Now(now: int): Env { Env(now, 1, 2, true) }

  /** One workspace through the run below: renewed then, ending then, with these keepers. */
  function Record(renewedAt: int, expiresAt: int, lease: int, keepers: seq<Keeper>): Workspace {
    var a := Assignment(3, "o", "h", 0, renewedAt, expiresAt, lease, false, renewedAt, keepers, map[]);
    Workspace("/w", true, "b", Assigned, None, Some(a), [], 0, renewedAt, None, None)
  }

  lemma RunnerRegisters()
    ensures Edited(Record(0, 3_000, 3_000, []), BeginActivity(7, 2_000_000_000), Now(0)) == Ok(Record(0, 3_000, 3_000, [Keeper(7, 0, 2_000)]))
  {
    assert ActiveKeepers([], 0, None) + [Keeper(7, 0, 2_000)] == [Keeper(7, 0, 2_000)];
  }

  lemma OwnerRenews()
    ensures Edited(Record(0, 3_000, 3_000, [Keeper(7, 0, 2_000)]), Renew(900_500, None), Now(500)) ==
              Ok(Record(500, 900_500, 900_000, [Keeper(7, 0, 2_000)]))
  {
  }

  lemma RunnerBeats()
    ensures Edited(Record(500, 900_500, 900_000, [Keeper(7, 0, 2_000)]), RefreshActivity(7, 3_000), Now(1_000)) ==
              Ok(Record(1_000, 901_000, 900_000, [Keeper(7, 1_000, 3_000)]))
  {
    var before, after := [Keeper(7, 0, 2_000)], [Keeper(7, 1_000, 3_000)];
    assert before[0] in before;
    assert before[1..] == [] && after[1..] == [];
    assert Beaten(before, 7, 1_000, 3_000) == after;
    assert ActiveKeepers(after, 1_000, Some(7)) == after;
  }

  lemma OtherRegisters()
    ensures Edited(Record(1_000, 901_000, 900_000, [Keeper(7, 1_000, 3_000)]), BeginActivity(8, 2_000_000_000), Now(5_000)) ==
              Ok(Record(5_000, 905_000, 900_000, [Keeper(8, 5_000, 7_000)]))
  {
    var before := [Keeper(7, 1_000, 3_000)];
    assert before[1..] == [];
    assert ActiveKeepers(before, 5_000, None) + [Keeper(8, 5_000, 7_000)] == [Keeper(8, 5_000, 7_000)];
  }

  /** The runner's view after each move. */
  function Registered(): Watch { Watch(Record(0, 3_000, 3_000, [Keeper(7, 0, 2_000)]), 7, 0, 1_000_000_000, 1_000_000_000, false) }

  function Renewed(): Watch { Registered().(record := Record(500, 900_500, 900_000, [Keeper(7, 0, 2_000)])) }

  function Lengthened(): Watch {
    Watch(Record(1_000, 901_000, 900_000, [Keeper(7, 1_000, 3_000)]), 7, 1_000, MAX_INTERVAL, 1_000_000_000, false)
  }

  function Dropped(): Watch { Lengthened().(record := Record(5_000, 905_000, 900_000, [Keeper(8, 5_000, 7_000)])) }

  lemma RenewalMove(m: Move)
    requires m == Call(Renew(900_500, None), Now(500))
    ensures WatchOk(Registered()) && CanMove(Registered(), m) && Moved(Registered(), m) == Renewed()
  {
    OwnerRenews();
    assert Registered().record.assignment.value.keepers[0] == Keeper(7, 0, 2_000);
  }

  lemma BeatMove(m: Move)
    requires m == Beat(1_000, Now(1_000))
    ensures WatchOk(Renewed()) && CanMove(Renewed(), m) && Moved(Renewed(), m) == Lengthened()
  {
    RunnerBeats();
    assert Renewed().record.assignment.value.keepers[0] == Keeper(7, 0, 2_000);
  }

  lemma OtherMove(m: Move)
    requires m == Call(BeginActivity(8, 2_000_000_000), Now(5_000))
    ensures WatchOk(Lengthened()) && CanMove(Lengthened(), m) && Moved(Lengthened(), m) == Dropped()
  {
    OtherRegisters();
  }

  lemma NextBeatIsRefused()
    ensures WatchOk(Dropped()) && Edited(Dropped().record, BeatEdit(Dropped(), 301_000), Now(301_000)) == Err(KeeperUnknown)
  {
  }

  lemma WatchOn(x: Watch, moves: seq<Move>, m: Move)
    requires WatchOk(x) && CanWatch(x, moves) && CanMove(Watched(x, moves), m)
    ensures CanWatch(x, moves + [m]) && Watched(x, moves + [m]) == Moved(Watched(x, moves), m)
    decreases moves
  {
    MoveKeepsWatch(Watched(x, moves), m);
    if moves == [] {
      assert [m][1..] == [];
      assert moves + [m] == [m];
    } else {
      MoveKeepsWatch(x, moves[0]);
      WatchOn(Moved(x, moves[0]), moves[1..], m);
      assert (moves + [m])[1..] == moves[1..] + [m];
    }
  }

  /** A renewal that lengthens the interval between two beats opens a gap. On a lease of three seconds a
      runner registers for two and beats every second; its owner renews to fifteen minutes, and the
      next beat, two seconds of cover with it, is the last for five minutes. Another runner registering
      in between drops the keeper, and the beat that follows, in time, is refused. */
  lemma LengthenedIntervalCanLoseItsKeeper() returns (begun: Workspace, x: Watch, moves: seq<Move>, asked: int)
    ensures Live(begun) && begun.assignment.value.keepers == []
    ensures x.interval == Interval(begun.assignment.value.lease)
    ensures Edited(begun, BeginActivity(x.keeper, x.interval * 2), Now(x.last)) == Ok(x.record) && WatchOk(x)
    ensures CanWatch(x, moves) && asked < Until(Watched(x, moves))
    ensures Edited(Watched(x, moves).record, BeatEdit(Watched(x, moves), asked), Now(asked)) == Err(KeeperUnknown)
  {
    begun, x, asked := Record(0, 3_000, 3_000, []), Registered(), 301_000;
    var m0, m1, m2 := Call(Renew(900_500, None), Now(500)), Beat(1_000, Now(1_000)), Call(BeginActivity(8, 2_000_000_000), Now(5_000));
    RunnerRegisters();
    RenewalMove(m0);
    BeatMove(m1);
    OtherMove(m2);
    assert CanWatch(x, []) && Watched(x, []) == x;
    WatchOn(x, [], m0);
    WatchOn(x, [] + [m0], m1);
    WatchOn(x, [] + [m0] + [m1], m2);
    moves := [] + [m0] + [m1] + [m2];
    NextBeatIsRefused();
  }

  // ---------------------------------------------------------------------------------------------
  // The runner's loop
  // ---------------------------------------------------------------------------------------------

  /** What the ticker's turns come to: each beat is one refresh, then one look at the lease. */
  datatype Tick = Tick(asked: int, env: Env)

  datatype Beats = Beats(document: State, interval: int, failed: bool)

  ghost function LeaseOf(s: State, id: Id): Option<int> {
    var p := Holder(s.workspaces, id);
    if p.None? then None else Some(s.workspaces[p.value].assignment.value.lease)
  }

  ghost function AfterLook(document: State, interval: int, id: Id): Beats {
    var lease := LeaseOf(document, id);
    if lease.None? || lease.value <= 0 then Beats(document, interval, true) else Beats(document, Interval(lease.value), false)
  }

  ghost function AfterBeat(document: State, refreshed: Result<State, Refusal>, interval: int, id: Id): Beats {
    match refreshed
    case Err(_) => Beats(document, interval, true)
    case Ok(next) => AfterLook(next, interval, id)
  }

  function BeatCall(interval: int, id: Id, keeper: Id, tick: Tick): Command {
    For(id, RefreshActivity(keeper, tick.asked + Window(interval)))
  }

  ghost function AfterBeats(b: Beats, id: Id, keeper: Id, ticks: seq<Tick>): Beats {
    if ticks == [] then b
    else
      var before := AfterBeats(b, id, keeper, ticks[..|ticks| - 1]);
      if before.failed then before else
        var tick := ticks[|ticks| - 1];
        AfterBeat(before.document, Apply(before.document, BeatCall(before.interval, id, keeper, tick), tick.env), before.interval, id)
  }

  lemma {:induction false} FailureStops(b: Beats, id: Id, keeper: Id, ticks: seq<Tick>, i: nat)
    requires i <= |ticks| && AfterBeats(b, id, keeper, ticks[..i]).failed
    ensures AfterBeats(b, id, keeper, ticks) == AfterBeats(b, id, keeper, ticks[..i])
    decreases |ticks|
  {
    if i < |ticks| {
      assert ticks[..|ticks| - 1][..i] == ticks[..i];
      FailureStops(b, id, keeper, ticks[..|ticks| - 1], i);
    } else {
      assert ticks[..i] == ticks;
    }
  }

  /** Beats until the work is done or a beat fails, and then takes its keeper down whatever happened. */
  method Run(repository: Repository, id: Id, keeper: Id, interval: int, ticks: seq<Tick>, last: Env)
    returns (failed: bool, removal: Option<Refusal>)
    requires repository.Valid()
    modifies repository
    ensures repository.Valid()
    ensures var beats := AfterBeats(Beats(old(repository.Document()), interval, false), id, keeper, ticks);
            failed == beats.failed && Follows(beats.document, For(id, FinishActivity(keeper)), last, repository.Document(), removal)
  {
    ghost var start := Beats(repository.Document(), interval, false);
    var duration := interval;
    failed := false;
    var i := 0;
    while i < |ticks| && !failed
      invariant 0 <= i <= |ticks| && repository.Valid()
      invariant AfterBeats(start, id, keeper, ticks[..i]) == Beats(repository.Document(), duration, failed)
    {
      assert ticks[..i + 1][..i] == ticks[..i];
      ghost var refreshed;
      duration, failed, refreshed := BeatOnce(repository, id, keeper, duration, ticks[i]);
      i := i + 1;
    }
    if failed { FailureStops(start, id, keeper, ticks, i); } else { assert ticks[..i] == ticks; }
    removal := repository.UpdateFor(id, FinishActivity(keeper), last);
  }

  method BeatOnce(repository: Repository, id: Id, keeper: Id, interval: int, tick: Tick)
    returns (next: int, failed: bool, ghost refreshed: Result<State, Refusal>)
    requires repository.Valid()
    modifies repository
    ensures repository.Valid()
    ensures refreshed == Apply(old(repository.Document()), BeatCall(interval, id, keeper, tick), tick.env)
    ensures AfterBeat(old(repository.Document()), refreshed, interval, id) == Beats(repository.Document(), next, failed)
  {
    var ok;
    ok, refreshed := Carry(repository, BeatCall(interval, id, keeper, tick), tick.env);
    next, failed := interval, true;
    if ok { next, failed := LookAtLease(repository, id, interval); }
  }

  method LookAtLease(repository: Repository, id: Id, interval: int) returns (next: int, failed: bool)
    requires repository.Valid()
    ensures AfterLook(repository.Document(), interval, id) == Beats(repository.Document(), next, failed)
  {
    var p := FindAssignment(repository.workspaces, id);
    if p.None? || repository.workspaces[p.value].assignment.value.lease <= 0 { return interval, true; }
    return Interval(repository.workspaces[p.value].assignment.value.lease), false;
  }
}
