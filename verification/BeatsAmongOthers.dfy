/**
 The activity runner's loop on a document everybody else uses too (internal/cli/activity_runner.go): its
 beats and any other calls, in any order.
 */
module BeatsAmongOthers {
  import opened Common
  import opened RukState
  import opened Transitions
  import opened Lifecycle
  import opened Fences
  import opened Leases
  import opened Service
  import opened Heartbeat

  datatype Happening = Ticked(tick: Tick) | Called(event: Event)

  ghost function AfterCall(document: State, e: Event): State {
    var next := Apply(document, e.command, e.env);
    if next.Ok? then next.value else document
  }

  /** A loop that has failed beats no more; others go on. */
  ghost function Happens(b: Beats, id: Id, keeper: Id, h: Happening): Beats {
    match h
    case Ticked(tick) =>
      if b.failed then b
      else AfterBeat(b.document, Apply(b.document, BeatCall(b.interval, id, keeper, tick), tick.env), b.interval, id)
    case Called(e) => b.(document := AfterCall(b.document, e))
  }

  ghost function AfterAll(b: Beats, id: Id, keeper: Id, hs: seq<Happening>): Beats
    decreases hs
  {
    if hs == [] then b else AfterAll(Happens(b, id, keeper, hs[0]), id, keeper, hs[1..])
  }

  function LastBeatAsked(last: int, hs: seq<Happening>): int
    decreases hs
  {
    if hs == [] then last else LastBeatAsked(if hs[0].Ticked? then hs[0].tick.asked else last, hs[1..])
  }

  /** Other calls leave the record alone, or come before the next beat is due and leave the assignment with
      its owner and this keeper to its runner. */
  ghost predicate Bearable(ws: map<Path, Workspace>, p: Path, keeper: Id, until: int, e: Event, ws': map<Path, Workspace>) {
    && p in ws && p in ws'
    && (ws'[p] == ws[p]
        || (e.env.now < until && EditOf(e.command) != Some(FinishActivity(keeper)) && SameAssignment(ws[p], ws'[p]) && Live(ws'[p])))
  }

  /** Each beat comes less than two of the current intervals after the last one, and everything else is
      bearable. */
  ghost predicate InTime(b: Beats, p: Path, id: Id, keeper: Id, last: int, hs: seq<Happening>)
    decreases hs
  {
    hs != [] ==>
      && (match hs[0]
          case Ticked(tick) => tick.asked <= tick.env.now && tick.asked < last + Window(b.interval)
          case Called(e) => Bearable(b.document.workspaces, p, keeper, last + Window(b.interval), e, AfterCall(b.document, e).workspaces))
      && InTime(Happens(b, id, keeper, hs[0]), p, id, keeper, if hs[0].Ticked? then hs[0].tick.asked else last, hs[1..])
  }

  // ---------------------------------------------------------------------------------------------
  // One happening is at most one move
  // ---------------------------------------------------------------------------------------------

  /** The document holds the watched record, under the assignment the runner beats for. */
  ghost predicate Shows(document: State, p: Path, id: Id, x: Watch) {
    ValidState(document) && p in document.workspaces && document.workspaces[p] == x.record && x.record.Carries(id)
  }

  lemma BeatShows(document: State, p: Path, id: Id, x: Watch, tick: Tick, refreshed: Result<State, Refusal>)
    requires Shows(document, p, id, x) && WatchOk(x) && tick.asked <= tick.env.now && tick.asked < Until(x)
    requires refreshed == Apply(document, BeatCall(x.interval, id, x.keeper, tick), tick.env) && refreshed.Ok?
    ensures CanMove(x, Beat(tick.asked, tick.env)) && Shows(refreshed.value, p, id, Moved(x, Beat(tick.asked, tick.env)))
  {
    HolderIsUnique(document.workspaces, id, p);
    LeaseEdit(x.record, BeatEdit(x, tick.asked), tick.env);
  }

  lemma LookShows(document: State, p: Path, id: Id, x: Watch, y: Watch, tick: Tick)
    requires WatchOk(x) && CanMove(x, Beat(tick.asked, tick.env)) && y == Moved(x, Beat(tick.asked, tick.env)) && Shows(document, p, id, y)
    ensures AfterLook(document, x.interval, id) == Beats(document, y.interval, false)
  {
    HolderIsUnique(document.workspaces, id, p);
    BeatEffect(x, tick.asked, tick.env);
  }

  /** The watch shows where the loop stands. */
  ghost predicate Stands(b: Beats, p: Path, id: Id, x: Watch) {
    WatchOk(x) && Shows(b.document, p, id, x) && x.interval == b.interval && !b.failed
  }

  lemma TickMoves(b: Beats, p: Path, id: Id, x: Watch, tick: Tick)
    requires Stands(b, p, id, x) && tick.asked <= tick.env.now && tick.asked < Until(x)
    requires !Happens(b, id, x.keeper, Ticked(tick)).failed
    ensures CanMove(x, Beat(tick.asked, tick.env))
    ensures Stands(Happens(b, id, x.keeper, Ticked(tick)), p, id, Moved(x, Beat(tick.asked, tick.env)))
  {
    var m, refreshed := Beat(tick.asked, tick.env), Apply(b.document, BeatCall(b.interval, id, x.keeper, tick), tick.env);
    BeatShows(b.document, p, id, x, tick, refreshed);
    LookShows(refreshed.value, p, id, x, Moved(x, m), tick);
    MoveKeepsWatch(x, m);
  }

  /** An accepted call changes a record only by one edit. */
  lemma CallEdits(document: State, e: Event, p: Path)
    requires p in document.workspaces && p in AfterCall(document, e).workspaces
    requires AfterCall(document, e).workspaces[p] != document.workspaces[p]
    ensures EditOf(e.command).Some?
    ensures Edited(document.workspaces[p], EditOf(e.command).value, e.env) == Ok(AfterCall(document, e).workspaces[p])
    ensures ValidState(AfterCall(document, e))
  {
    DecisionShape(document.workspaces, e.command, e.env);
  }

  lemma CallStaysValid(document: State, e: Event)
    requires ValidState(document)
    ensures ValidState(AfterCall(document, e))
  {
  }

  lemma CallMoves(b: Beats, p: Path, id: Id, x: Watch, e: Event, document: State)
    requires Stands(b, p, id, x) && document == AfterCall(b.document, e)
    requires Bearable(b.document.workspaces, p, x.keeper, Until(x), e, document.workspaces)
    requires document.workspaces[p] != x.record
    ensures EditOf(e.command).Some? && CanMove(x, Call(EditOf(e.command).value, e.env))
    ensures Stands(b.(document := document), p, id, Moved(x, Call(EditOf(e.command).value, e.env)))
  {
    CallEdits(b.document, e, p);
    MoveKeepsWatch(x, Call(EditOf(e.command).value, e.env));
  }

  lemma {:induction false} FailureStays(b: Beats, id: Id, keeper: Id, hs: seq<Happening>)
    requires b.failed
    ensures AfterAll(b, id, keeper, hs).failed
    decreases hs
  {
    if hs != [] { FailureStays(Happens(b, id, keeper, hs[0]), id, keeper, hs[1..]); }
  }

  ghost predicate Reaches(x: Watch, moves: seq<Move>, b: Beats, p: Path, id: Id, last: int) {
    && WatchOk(x) && CanWatch(x, moves)
    && var y := Watched(x, moves); Stands(b, p, id, y) && y.keeper == x.keeper && y.last == last
  }

  lemma MoveFirst(x: Watch, m: Move, moves: seq<Move>, b: Beats, p: Path, id: Id, last: int)
    requires WatchOk(x) && CanMove(x, m) && WatchOk(Moved(x, m)) && Reaches(Moved(x, m), moves, b, p, id, last)
    ensures Reaches(x, [m] + moves, b, p, id, last)
  {
    assert ([m] + moves)[1..] == moves;
  }

  lemma HappeningMoves(b: Beats, p: Path, id: Id, x: Watch, h: Happening, next: Beats) returns (moves: seq<Move>, y: Watch)
    requires Stands(b, p, id, x) && next == Happens(b, id, x.keeper, h) && !next.failed && InTime(b, p, id, x.keeper, x.last, [h])
    ensures Stands(next, p, id, y) && y.keeper == x.keeper && y.last == (if h.Ticked? then h.tick.asked else x.last)
    ensures (moves == [] && y == x) || (|moves| == 1 && CanMove(x, moves[0]) && y == Moved(x, moves[0]))
    ensures h.Ticked? ==> !y.shortened
  {
    match h
    case Ticked(tick) =>
      TickMoves(b, p, id, x, tick);
      moves, y := [Beat(tick.asked, tick.env)], Moved(x, Beat(tick.asked, tick.env));
    case Called(e) =>
      if next.document.workspaces[p] == x.record {
        CallStaysValid(b.document, e);
        moves, y := [], x;
      } else {
        CallMoves(b, p, id, x, e, next.document);
        var m := Call(EditOf(e.command).value, e.env);
        moves, y := [m], Moved(x, m);
      }
  }

  lemma InTimeFirst(b: Beats, p: Path, id: Id, keeper: Id, last: int, hs: seq<Happening>)
    requires hs != [] && InTime(b, p, id, keeper, last, hs)
    ensures InTime(b, p, id, keeper, last, [hs[0]])
  {
    assert [hs[0]][1..] == [];
  }

  ghost predicate OnlyBeats(hs: seq<Happening>) { forall h :: h in hs ==> h.Ticked? }

  /** As long as no beat fails and everything comes in time, what happens to the record is a run of the
      watch: the runner's beats and the other calls that touched it. */
  lemma {:induction false} HappeningsAreMoves(b: Beats, p: Path, id: Id, x: Watch, hs: seq<Happening>) returns (moves: seq<Move>)
    requires Stands(b, p, id, x) && InTime(b, p, id, x.keeper, x.last, hs) && !AfterAll(b, id, x.keeper, hs).failed
    ensures Reaches(x, moves, AfterAll(b, id, x.keeper, hs), p, id, LastBeatAsked(x.last, hs))
    ensures OnlyBeats(hs) && (!x.shortened || hs != []) ==> !Watched(x, moves).shortened
    decreases hs
  {
    moves := [];
    if hs != [] {
      var next := Happens(b, id, x.keeper, hs[0]);
      if next.failed { FailureStays(next, id, x.keeper, hs[1..]); }
      InTimeFirst(b, p, id, x.keeper, x.last, hs);
      var first, y := HappeningMoves(b, p, id, x, hs[0], next);
      var rest := HappeningsAreMoves(next, p, id, y, hs[1..]);
      if first == [] {
        moves := rest;
      } else {
        MoveFirst(x, first[0], rest, AfterAll(b, id, x.keeper, hs), p, id, LastBeatAsked(x.last, hs));
        moves := [first[0]] + rest;
      }
    }
  }

  /** While the loop beats in time, and whoever else does what to the document, the assignment is never an
      expired candidate by any clock before the next beat is due; unless someone moved its expiry earlier
      in the gap after a beat that lengthened the interval. */
  lemma WorkStaysAlive(b: Beats, p: Path, id: Id, x: Watch, hs: seq<Happening>, cutoff: int, now: int) returns (moves: seq<Move>)
    requires Stands(b, p, id, x) && InTime(b, p, id, x.keeper, x.last, hs) && !AfterAll(b, id, x.keeper, hs).failed
    requires now < LastBeatAsked(x.last, hs) + Window(AfterAll(b, id, x.keeper, hs).interval)
    ensures Reaches(x, moves, AfterAll(b, id, x.keeper, hs), p, id, LastBeatAsked(x.last, hs))
    ensures var y, ws := Watched(x, moves), AfterAll(b, id, x.keeper, hs).document.workspaces;
            && p in ws && ws[p].Carries(id)
            && (y.kept >= y.interval || !y.shortened ==> !ExpiredCandidate(ws[p], cutoff, now))
  {
    moves := HappeningsAreMoves(b, p, id, x, hs);
    var y := Watched(x, moves);
    if y.kept >= y.interval || !y.shortened { BeatsKeepWorkAlive(x, moves, cutoff, now); }
  }

  /** The runner's registration is where the watch starts. */
  lemma RegistrationStands(document: State, p: Path, id: Id, keeper: Id, interval: int, env: Env, next: Result<State, Refusal>) returns (x: Watch)
    requires ValidState(document) && p in document.workspaces && document.workspaces[p].Carries(id) && interval > 0
    requires next == Apply(document, For(id, BeginActivity(keeper, interval * 2)), env) && next.Ok?
    ensures Stands(Beats(next.value, interval, false), p, id, x)
    ensures x.keeper == keeper && x.last == env.now && x.kept == x.interval
  {
    HolderIsUnique(document.workspaces, id, p);
    var w := document.workspaces[p];
    assert ValidWorkspace(w);
    BegunWatchIsOk(w, keeper, interval, env);
    LeaseEdit(w, BeginActivity(keeper, interval * 2), env);
    var w' := Edited(w, BeginActivity(keeper, interval * 2), env).value;
    x := Watch(w', keeper, env.now, interval, interval, w'.assignment.value.expiresAt < env.now + Window(interval));
  }

  // ---------------------------------------------------------------------------------------------
  // Without anyone else, this is the loop
  // ---------------------------------------------------------------------------------------------

  function OnlyTicks(ticks: seq<Tick>): seq<Happening> { seq(|ticks|, i requires 0 <= i < |ticks| => Ticked(ticks[i])) }

  lemma {:induction false} OneMore(b: Beats, id: Id, keeper: Id, hs: seq<Happening>, h: Happening)
    ensures AfterAll(b, id, keeper, hs + [h]) == Happens(AfterAll(b, id, keeper, hs), id, keeper, h)
    decreases hs
  {
    if hs == [] {
      assert hs + [h] == [h] && [h][1..] == [];
    } else {
      assert (hs + [h])[1..] == hs[1..] + [h];
      OneMore(Happens(b, id, keeper, hs[0]), id, keeper, hs[1..], h);
    }
  }

  lemma OneMoreTick(b: Beats, id: Id, keeper: Id, ticks: seq<Tick>)
    requires ticks != []
    ensures var before, last := ticks[..|ticks| - 1], Ticked(ticks[|ticks| - 1]);
            && OnlyTicks(ticks) == OnlyTicks(before) + [last]
            && AfterBeats(b, id, keeper, ticks) == Happens(AfterBeats(b, id, keeper, before), id, keeper, last)
  {
  }

  /** It is the loop that Heartbeat.Run is proved to run. */
  lemma {:induction false} AloneItIsTheLoop(b: Beats, id: Id, keeper: Id, ticks: seq<Tick>)
    ensures AfterAll(b, id, keeper, OnlyTicks(ticks)) == AfterBeats(b, id, keeper, ticks)
    decreases |ticks|
  {
    if ticks == [] {
      assert OnlyTicks(ticks) == [];
    } else {
      var before := ticks[..|ticks| - 1];
      AloneItIsTheLoop(b, id, keeper, before);
      OneMore(b, id, keeper, OnlyTicks(before), Ticked(ticks[|ticks| - 1]));
      OneMoreTick(b, id, keeper, ticks);
    }
  }

  /** The loop alone: after any number of its beats in time, by no clock before the next one is due, is its
      assignment an expired candidate. */
  lemma LoopKeepsWorkAlive(b: Beats, p: Path, id: Id, x: Watch, ticks: seq<Tick>, cutoff: int, now: int)
    requires Stands(b, p, id, x) && (x.kept >= x.interval || !x.shortened)
    requires InTime(b, p, id, x.keeper, x.last, OnlyTicks(ticks)) && !AfterBeats(b, id, x.keeper, ticks).failed
    requires now < LastBeatAsked(x.last, OnlyTicks(ticks)) + Window(AfterBeats(b, id, x.keeper, ticks).interval)
    ensures var after := AfterBeats(b, id, x.keeper, ticks).document;
            p in after.workspaces && after.workspaces[p].Carries(id) && !ExpiredCandidate(after.workspaces[p], cutoff, now)
  {
    if ticks == [] {
      assert OnlyTicks(ticks) == [];
      BeatsKeepWorkAlive(x, [], cutoff, now);
    } else {
      AloneItIsTheLoop(b, id, x.keeper, ticks);
      var moves := HappeningsAreMoves(b, p, id, x, OnlyTicks(ticks));
      BeatsKeepWorkAlive(x, moves, cutoff, now);
    }
  }
}
