/**
 Exactly when the directory lock of internal/lock/lock.go fails to exclude, over whole runs and without
 any promise about probes: when a retirement moves a directory away while a guard is up. The first such
 failure of a run is a late retirement; later ones need not be.
 */
module LockDisplacement {
  import opened Common
  import opened DirectoryLock

  // ---------------------------------------------------------------------------------------------
  // Every retirement takes what it sighted, exactly when none is late
  // ---------------------------------------------------------------------------------------------

  predicate Retires(a: Action) { a.By? && a.move.Retire? }

  /** A retirement moves exactly the directory of the owner it sighted. */
  ghost predicate TakesItsOwn(s: State, a: Action) {
    Retires(a) && Enabled(s, a) ==> Canonical in s.dirs && s.dirs[Canonical] == Owned(s.Phase(a.c).owner)
  }

  ghost predicate TakesItsOwnThroughout(s: State, run: seq<Action>)
    decreases run
  {
    run != [] && Enabled(s, run[0]) ==> TakesItsOwn(s, run[0]) && TakesItsOwnThroughout(Next(s, run[0]), run[1..])
  }

  lemma OnTimeTakesItsOwn(s: State, a: Action)
    requires Inv(s) && Enabled(s, a)
    ensures OnTime(s, a) <==> TakesItsOwn(s, a)
  {
    if Retires(a) {
      if s.Phase(a.c).owner.token in s.released {
        assert !s.Carries(s.Phase(a.c).owner.token);
      } else {
        OldSightingTakesOnlyTheDeadOwner(s, a.c);
      }
    }
  }

  lemma {:induction false} OwnExactlyWhenOnTime(s: State, run: seq<Action>)
    requires Inv(s)
    ensures OnTimeThroughout(s, run) <==> TakesItsOwnThroughout(s, run)
    decreases run
  {
    if run != [] && Enabled(s, run[0]) {
      OnTimeTakesItsOwn(s, run[0]);
      if OnTime(s, run[0]) {
        InvStep(s, run[0]);
        OwnExactlyWhenOnTime(Next(s, run[0]), run[1..]);
      }
    }
  }

  /** Over every run from the start: every retirement moves exactly the sighted owner's own directory if
      and only if no retirement acts on an owner that released meanwhile. */
  lemma RetirementsTakeTheirOwnExactlyWhenOnTime(s: State, run: seq<Action>)
    requires Init(s)
    ensures OnTimeThroughout(s, run) <==> TakesItsOwnThroughout(s, run)
  {
    InvInit(s);
    OwnExactlyWhenOnTime(s, run);
  }

  // ---------------------------------------------------------------------------------------------
  // Exclusion, exactly while no retirement strikes a guarded lock
  // ---------------------------------------------------------------------------------------------

  /** A retirement happens only while no guard is up. */
  ghost predicate Spares(s: State, a: Action) { Retires(a) ==> forall d :: !s.Guards(d) }

  ghost predicate SparesThroughout(s: State, run: seq<Action>)
    decreases run
  {
    run != [] && Enabled(s, run[0]) ==> Spares(s, run[0]) && SparesThroughout(Next(s, run[0]), run[1..])
  }

  /** Mutual exclusion in every state of the run. */
  ghost predicate ExcludesThroughout(s: State, run: seq<Action>)
    decreases run
  {
    MutualExclusion(s) && (run != [] && Enabled(s, run[0]) ==> ExcludesThroughout(Next(s, run[0]), run[1..]))
  }

  /** What holds of the directories and guards however late retirements are, as long as they spare the
      guards: much less than Inv. */
  ghost predicate Loose(s: State) {
    && TokensOk(s)
    && (forall c :: c in s.contenders ==> s.contenders[c].process in s.born)
    && (Canonical in s.dirs ==> s.dirs[Canonical].Owned?)
    && (forall t :: Pending(t) in s.dirs && s.dirs[Pending(t)].Owned? ==> s.dirs[Pending(t)].owner.token == t)
    && (forall c :: LooseContender(s, c))
  }

  ghost predicate LooseContender(s: State, c: nat) {
    s.Acts(c) ==>
      && (s.Phase(c).Written? && Pending(s.Phase(c).token) in s.dirs ==> s.dirs[Pending(s.Phase(c).token)].Owned?)
      && (s.Phase(c).Guarding() ==> s.Carries(s.Phase(c).token))
  }

  lemma LooseExcludes(s: State)
    requires Loose(s)
    ensures MutualExclusion(s)
  {
    forall c | s.Guards(c) ensures s.Carries(s.Phase(c).token) { assert LooseContender(s, c); }
    forall c, d | s.Guards(c) && s.Guards(d) ensures c == d { assert SameToken(s.Phase(c), s.Phase(d)); }
  }

  /** The canonical directory goes away only under its own holder's release, or under a retirement. */
  lemma GuardedStays(s: State, c: nat, m: Move, d: nat)
    requires Loose(s) && CanMove(s, c, m) && Spares(s, By(c, m)) && s.Guards(d) && d != c
    ensures Moves(s, c, m).Carries(s.Phase(d).token)
  {
    assert LooseContender(s, c) && LooseContender(s, d);
    assert !SameToken(s.Phase(c), s.Phase(d));
  }

  lemma LooseMover(s: State, c: nat, m: Move)
    requires Loose(s) && CanMove(s, c, m)
    ensures LooseContender(Moves(s, c, m), c)
  {
    assert LooseContender(s, c);
  }

  lemma LooseBystander(s: State, c: nat, m: Move, d: nat)
    requires Loose(s) && CanMove(s, c, m) && Spares(s, By(c, m)) && d != c
    ensures LooseContender(Moves(s, c, m), d)
  {
    OneContenderMoves(s, c, m);
    assert LooseContender(s, d);
    if s.Guards(d) { GuardedStays(s, c, m, d); }
    if s.Acts(d) && s.Phase(d).Written? { assert !SameToken(s.Phase(c), s.Phase(d)); }
  }

  lemma LooseDirectories(s: State, c: nat, m: Move)
    requires Loose(s) && CanMove(s, c, m)
    ensures Canonical in Moves(s, c, m).dirs ==> Moves(s, c, m).dirs[Canonical].Owned?
    ensures forall t :: Pending(t) in Moves(s, c, m).dirs && Moves(s, c, m).dirs[Pending(t)].Owned? ==>
              Moves(s, c, m).dirs[Pending(t)].owner.token == t
  {
    assert LooseContender(s, c);
  }

  lemma LooseMove(s: State, c: nat, m: Move)
    requires Loose(s) && CanMove(s, c, m) && Spares(s, By(c, m))
    ensures Loose(Moves(s, c, m))
  {
    TokensMove(s, c, m);
    OneContenderMoves(s, c, m);
    LooseDirectories(s, c, m);
    forall d ensures LooseContender(Moves(s, c, m), d) {
      if d == c { LooseMover(s, c, m); } else { LooseBystander(s, c, m, d); }
    }
  }

  lemma LooseEnvironment(s: State, a: Action)
    requires Loose(s) && Enabled(s, a) && !a.By?
    ensures Loose(Next(s, a))
  {
    var s' := Next(s, a);
    forall c, d | c in s'.contenders && d in s'.contenders && SameToken(s'.Phase(c), s'.Phase(d)) ensures c == d {
      assert SameToken(s.Phase(c), s.Phase(d));
    }
    forall c ensures LooseContender(s', c) { assert LooseContender(s, c); }
  }

  /** Striking while a guard is up breaks exclusion at once: that guard's directory is gone. */
  lemma StrikeBreaks(s: State, a: Action)
    requires Enabled(s, a) && !Spares(s, a)
    ensures !MutualExclusion(Next(s, a))
  {
    var d :| s.Guards(d);
    assert Next(s, a).Guards(d) && !Next(s, a).Carries(s.Phase(d).token);
  }

  lemma {:induction false} ExcludesExactlyWhileSparing(s: State, run: seq<Action>)
    requires Loose(s)
    ensures ExcludesThroughout(s, run) <==> SparesThroughout(s, run)
    decreases run
  {
    LooseExcludes(s);
    if run != [] && Enabled(s, run[0]) {
      if Spares(s, run[0]) {
        if run[0].By? { LooseMove(s, run[0].c, run[0].move); } else { LooseEnvironment(s, run[0]); }
        ExcludesExactlyWhileSparing(Next(s, run[0]), run[1..]);
      } else {
        StrikeBreaks(s, run[0]);
      }
    }
  }

  /** The exact condition, over every run of any number of contenders, crashes anywhere, and probes as
      late as they like: the lock excludes throughout if and only if no retirement happens while a guard
      is up. Nothing else can break it. */
  lemma ExclusionFailsOnlyByAStrike(s: State, run: seq<Action>)
    requires Init(s)
    ensures ExcludesThroughout(s, run) <==> SparesThroughout(s, run)
  {
    ExcludesExactlyWhileSparing(s, run);
  }

  // ---------------------------------------------------------------------------------------------
  // A second displacement that is not late
  // ---------------------------------------------------------------------------------------------

  /** Once a late retirement has moved a dead owner's directory to the wrong tombstone, a contender that
      sighted that dead owner, who never released, finds its tombstone free: it displaces a live guard
      with a retirement that is on time. */
  lemma LateRetirementsChain() returns (s: State, run: seq<Action>, mid: State, next: State)
    ensures Init(s) && After(s, run) == Some(mid)
    ensures Enabled(mid, By(3, Retire)) && OnTime(mid, By(3, Retire)) && next == Next(mid, By(3, Retire))
    ensures 3 in mid.contenders && mid.Phase(3) == Sighted(Owner(9, "c", 12)) && 12 !in mid.released
    ensures mid.Guards(1) && MutualExclusion(mid) && !MutualExclusion(next)
  {
    s, run, mid := TwoSightings();
    run, mid := WrongTombstone(s, run, mid);
    run, mid := LastGuard(s, run, mid);
    LastStrikes(mid);
    next := Next(mid, By(3, Retire));
  }

  /** The first owner is gone but remembered, the second is dead and sighted. */
  lemma TwoSightings() returns (s: State, run: seq<Action>, next: State)
    ensures Init(s) && After(s, run) == Some(next)
    ensures Cast(next, Moved(10), Read(Owner(7, "a", 10)), Held(12), Sighted(Owner(9, "c", 12)))
    ensures next.live == {Process(8, "b", "b"), Process(6, "d", "d")} && next.released == {10} && next.issued.Keys == {10, 11, 12, 13}
    ensures next.dirs == map[Released(10) := Owned(Owner(7, "a", 10)), Canonical := Owned(Owner(9, "c", 12))]
  {
    s, run, next := EveryoneArrives();
    run, next := FirstOwnerIsRead(s, run, next);
    run, next := FirstOwnerGoes(s, run, next);
    run, next := SecondOwnerDies(s, run, next);
    run, next := SecondOwnerIsSighted(s, run, next);
  }

  predicate Cast(s: State, first: Phase, second: Phase, third: Phase, fourth: Phase) {
    s.contenders == map[0 := Contender(Process(7, "a", "a"), first), 1 := Contender(Process(8, "b", "b"), second),
                        2 := Contender(Process(9, "c", "c"), third), 3 := Contender(Process(6, "d", "d"), fourth)]
  }

  lemma EveryoneArrives() returns (s: State, run: seq<Action>, next: State)
    ensures Init(s) && After(s, run) == Some(next) && Cast(next, Idle, Idle, Idle, Idle)
    ensures next.live == {Process(7, "a", "a"), Process(8, "b", "b"), Process(9, "c", "c"), Process(6, "d", "d")}
    ensures next.dirs == map[] && next.issued == map[] && next.released == {}
  {
    s := State(map[], {}, {}, map[], map[], {});
    run, next := Extend(s, [], s, Spawn(0, Process(7, "a", "a")));
    run, next := Extend(s, run, next, Spawn(1, Process(8, "b", "b")));
    run, next := Extend(s, run, next, Spawn(2, Process(9, "c", "c")));
    run, next := Extend(s, run, next, Spawn(3, Process(6, "d", "d")));
  }

  /** Contender 0 holds the lock and contender 1 has read its record. */
  lemma FirstOwnerIsRead(s: State, run: seq<Action>, mid: State) returns (longer: seq<Action>, next: State)
    requires After(s, run) == Some(mid) && Cast(mid, Idle, Idle, Idle, Idle)
    requires {Process(7, "a", "a"), Process(8, "b", "b")} <= mid.live && mid.dirs == map[] && mid.issued == map[]
    ensures After(s, longer) == Some(next) && Cast(next, Held(10), Read(Owner(7, "a", 10)), Idle, Idle)
    ensures next.live == mid.live && next.released == mid.released
    ensures next.dirs == map[Canonical := Owned(Owner(7, "a", 10))] && next.issued.Keys == {10, 11}
  {
    longer, next := Acquires(s, run, mid, 0, 10);
    longer, next := Reads(s, longer, next, 1, 11);
  }

  /** It releases and exits. */
  lemma FirstOwnerGoes(s: State, run: seq<Action>, mid: State) returns (longer: seq<Action>, next: State)
    requires After(s, run) == Some(mid) && Cast(mid, Held(10), Read(Owner(7, "a", 10)), Idle, Idle) && Process(7, "a", "a") in mid.live
    requires mid.dirs == map[Canonical := Owned(Owner(7, "a", 10))] && mid.released == {}
    ensures After(s, longer) == Some(next) && Cast(next, Moved(10), Read(Owner(7, "a", 10)), Idle, Idle)
    ensures next.live == mid.live - {Process(7, "a", "a")} && next.issued == mid.issued
    ensures next.dirs == map[Released(10) := Owned(Owner(7, "a", 10))] && next.released == {10}
  {
    longer, next := FirstOwnerReleases(s, run, mid);
    longer, next := Extend(s, longer, next, Crash(Process(7, "a", "a")));
  }

  lemma FirstOwnerReleases(s: State, run: seq<Action>, mid: State) returns (longer: seq<Action>, next: State)
    requires After(s, run) == Some(mid) && Cast(mid, Held(10), Read(Owner(7, "a", 10)), Idle, Idle) && Process(7, "a", "a") in mid.live
    requires mid.dirs == map[Canonical := Owned(Owner(7, "a", 10))] && mid.released == {}
    ensures After(s, longer) == Some(next)
    ensures next.contenders == mid.contenders[0 := Contender(Process(7, "a", "a"), Moved(10))]
    ensures next.live == mid.live && next.issued == mid.issued
    ensures next.dirs == map[Released(10) := Owned(Owner(7, "a", 10))] && next.released == {10}
  {
    longer, next := Extend(s, run, mid, By(0, VerifyGuard));
    longer, next := Extend(s, longer, next, By(0, MoveReleased));
  }

  /** Contender 2 takes the free lock and crashes. */
  lemma SecondOwnerDies(s: State, run: seq<Action>, mid: State) returns (longer: seq<Action>, next: State)
    requires After(s, run) == Some(mid) && Cast(mid, Moved(10), Read(Owner(7, "a", 10)), Idle, Idle)
    requires mid.live == {Process(8, "b", "b"), Process(9, "c", "c"), Process(6, "d", "d")}
    requires mid.dirs == map[Released(10) := Owned(Owner(7, "a", 10))] && mid.issued.Keys == {10, 11}
    ensures After(s, longer) == Some(next) && Cast(next, Moved(10), Read(Owner(7, "a", 10)), Held(12), Idle)
    ensures next.live == {Process(8, "b", "b"), Process(6, "d", "d")}
    ensures next.dirs == map[Released(10) := Owned(Owner(7, "a", 10)), Canonical := Owned(Owner(9, "c", 12))]
    ensures next.issued.Keys == {10, 11, 12} && next.released == mid.released
  {
    longer, next := Acquires(s, run, mid, 2, 12);
    longer, next := Extend(s, longer, next, Crash(Process(9, "c", "c")));
  }

  /** Contender 3 reads its record and finds it dead. */
  lemma SecondOwnerIsSighted(s: State, run: seq<Action>, mid: State) returns (longer: seq<Action>, next: State)
    requires After(s, run) == Some(mid) && Cast(mid, Moved(10), Read(Owner(7, "a", 10)), Held(12), Idle)
    requires mid.live == {Process(8, "b", "b"), Process(6, "d", "d")}
    requires mid.dirs == map[Released(10) := Owned(Owner(7, "a", 10)), Canonical := Owned(Owner(9, "c", 12))]
    requires mid.issued.Keys == {10, 11, 12}
    ensures After(s, longer) == Some(next)
    ensures Cast(next, Moved(10), Read(Owner(7, "a", 10)), Held(12), Sighted(Owner(9, "c", 12)))
    ensures next.live == mid.live && next.dirs == mid.dirs && next.issued.Keys == {10, 11, 12, 13} && next.released == mid.released
  {
    longer, next := Reads(s, run, mid, 3, 13);
    longer, next := Extend(s, longer, next, By(3, ProbeOwner(Probe(false, false, ""))));
  }

  /** Only now does contender 1 probe the first owner, and moves the second one's directory away under
      the first one's name. */
  lemma WrongTombstone(s: State, run: seq<Action>, mid: State) returns (longer: seq<Action>, next: State)
    requires After(s, run) == Some(mid)
    requires Cast(mid, Moved(10), Read(Owner(7, "a", 10)), Held(12), Sighted(Owner(9, "c", 12)))
    requires mid.live == {Process(8, "b", "b"), Process(6, "d", "d")}
    requires mid.dirs == map[Released(10) := Owned(Owner(7, "a", 10)), Canonical := Owned(Owner(9, "c", 12))] && mid.released == {10}
    ensures After(s, longer) == Some(next)
    ensures Cast(next, Moved(10), Idle, Held(12), Sighted(Owner(9, "c", 12)))
    ensures next.live == mid.live && next.issued == mid.issued && next.released == mid.released
    ensures next.dirs == map[Released(10) := Owned(Owner(7, "a", 10)), Abandoned(10) := Owned(Owner(9, "c", 12))]
  {
    longer, next := Extend(s, run, mid, By(1, ProbeOwner(Probe(false, false, ""))));
    longer, next := Extend(s, longer, next, By(1, Retire));
  }

  /** And takes the lock that looks free. */
  lemma LastGuard(s: State, run: seq<Action>, mid: State) returns (longer: seq<Action>, next: State)
    requires After(s, run) == Some(mid) && 14 !in mid.issued
    requires Cast(mid, Moved(10), Idle, Held(12), Sighted(Owner(9, "c", 12)))
    requires mid.live == {Process(8, "b", "b"), Process(6, "d", "d")}
    requires mid.dirs == map[Released(10) := Owned(Owner(7, "a", 10)), Abandoned(10) := Owned(Owner(9, "c", 12))]
    ensures After(s, longer) == Some(next) && next.released == mid.released
    ensures Cast(next, Moved(10), Held(14), Held(12), Sighted(Owner(9, "c", 12)))
    ensures next.live == mid.live && next.Carries(14) && Abandoned(12) !in next.dirs
  {
    longer, next := Acquires(s, run, mid, 1, 14);
  }

  lemma LastStrikes(mid: State)
    requires Cast(mid, Moved(10), Held(14), Held(12), Sighted(Owner(9, "c", 12))) && 12 !in mid.released
    requires mid.live == {Process(8, "b", "b"), Process(6, "d", "d")} && mid.Carries(14) && Abandoned(12) !in mid.dirs
    ensures Enabled(mid, By(3, Retire)) && OnTime(mid, By(3, Retire))
    ensures mid.Guards(1) && MutualExclusion(mid) && !MutualExclusion(Next(mid, By(3, Retire)))
  {
    assert mid.Guards(1);
    StrikeBreaks(mid, By(3, Retire));
  }
}
