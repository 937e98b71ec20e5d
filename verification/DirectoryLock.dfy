/**
 The owner-fenced directory lock of internal/lock/lock.go as a step machine.

 Any number of contenders, living in any number of processes of one host, work on one canonical
 lock path. Each file system call that another process can interleave with is one action; a
 process may crash between any two of them. Directory names that the code derives from a token
 digest are indexed by the token itself: the digest is taken to be injective.
 */
module DirectoryLock {
  import opened Common

  type Token = nat

  /** One process incarnation. `recorded` is what it writes into its owner record: its native
      identity, or nothing when the platform could not tell. */
  datatype Process = Process(pid: int, native: string, recorded: string)

  /** The fence written inside a lock directory. */
  datatype Owner = Owner(pid: int, identity: string, token: Token)

  datatype Probe = Probe(alive: bool, identityKnown: bool, identity: string)

  datatype Name = Canonical | Pending(token: Token) | Released(token: Token) | Abandoned(token: Token)

  /** A directory without, or with, its owner file. */
  datatype Directory = Empty | Owned(owner: Owner)

  datatype Phase =
    | Idle
    | Drawn(token: Token)    // a fresh token is chosen
    | Made(token: Token)     // the staging directory exists
    | Written(token: Token)  // the owner record is inside it
    | Busy                   // publication lost; about to inspect the canonical path
    | Read(owner: Owner)     // a stale-looking owner record was read
    | Sighted(owner: Owner)  // that owner was probed dead; about to rename
    | Held(token: Token)     // a guard was returned
    | Verified(token: Token) // Release read its own token back; about to rename
    | Moved(token: Token)    // the canonical directory was renamed to the released tombstone
    | Cleaning(token: Token) // the moved record was verified again
  {
    predicate HasToken() {
      Drawn? || Made? || Written? || Held? || Verified? || Moved? || Cleaning?
    }

    /** The phases during which the caller relies on exclusive ownership. */
    predicate Guarding() { Held? || Verified? }
  }

  datatype Contender = Contender(process: Process, phase: Phase)

  /** `issued` and `released` are history: which process drew each token, and which tokens were
      ever moved to a released tombstone. */
  datatype State = State(
    dirs: map<Name, Directory>,
    born: set<Process>,
    live: set<Process>,
    contenders: map<nat, Contender>,
    issued: map<Token, Process>,
    released: set<Token>)
  {
    predicate Acts(c: nat) { c in contenders && contenders[c].process in live }

    function Phase(c: nat): Phase
      requires c in contenders
    { contenders[c].phase }

    function Goto(c: nat, phase: Phase): State
      requires c in contenders
    { this.(contenders := contenders[c := contenders[c].(phase := phase)]) }

    predicate Carries(t: Token) {
      Canonical in dirs && dirs[Canonical].Owned? && dirs[Canonical].owner.token == t
    }

    predicate Guards(c: nat) { Acts(c) && Phase(c).Guarding() }
  }

  /** What one contender does between two file system calls. */
  datatype Move =
    | Draw(token: Token)
    | MakeStaging
    | WriteOwner
    | Publish
    | PublishFails(busy: bool)
    | Retry
    | ReadOwner
    | ProbeOwner(probe: Probe)
    | Retire
    | RetireFails
    | VerifyGuard
    | MoveReleased
    | MoveFails
    | VerifyMoved
    | FinishRelease

  datatype Action =
    | By(c: nat, move: Move)
    | Spawn(c: nat, process: Process)
    | Crash(process: Process)
    | ReapStaging(token: Token)
    | SweepOwner(token: Token)
    | SweepDirectory(token: Token)

  function OwnerRecord(p: Process, t: Token): Owner { Owner(p.pid, p.recorded, t) }

  /** An empty identity never matches. */
  predicate SameIdentity(expected: string, observed: string) { expected != "" && expected == observed }

  function OwnerIsAlive(owner: Owner, probe: Probe): bool {
    if owner.pid <= 0 then false
    else if !probe.alive then false
    else if owner.identity == "" || !probe.identityKnown then true
    else SameIdentity(owner.identity, probe.identity)
  }

  /** What a native probe of `pid` may report: it never misses a live process and never reports
      another process's identity, but it may fail to learn an identity. */
  ghost predicate Truthful(live: set<Process>, pid: int, probe: Probe) {
    && (probe.alive <==> exists p :: p in live && p.pid == pid)
    && (probe.identityKnown ==> forall p :: p in live && p.pid == pid ==> probe.identity == p.native)
  }

  ghost predicate ProcessOk(p: Process) { p.pid > 0 && (p.recorded == "" || p.recorded == p.native) }

  /** rename() of a directory succeeds onto a missing name or an empty directory only. */
  predicate CanReplace(dirs: map<Name, Directory>, target: Name) {
    target !in dirs || dirs[target].Empty?
  }

  function Renamed(dirs: map<Name, Directory>, source: Name, target: Name): map<Name, Directory>
    requires source in dirs
  {
    (dirs - {source})[target := dirs[source]]
  }

  /** Whether the code can make the move here. Ages, retries and native failures are left open,
      so every outcome the code allows for is enabled. */
  ghost predicate CanMove(s: State, c: nat, m: Move) {
    s.Acts(c) &&
    var phase := s.Phase(c);
    match m
    case Draw(t) => phase.Idle? && t !in s.issued
    case MakeStaging => phase.Drawn?
    case WriteOwner => phase.Made?
    case Publish => phase.Written? && Pending(phase.token) in s.dirs && CanReplace(s.dirs, Canonical)
    case PublishFails(_) => phase.Written? && (Pending(phase.token) !in s.dirs || !CanReplace(s.dirs, Canonical))
    case Retry => phase.Busy? || phase.Read?
    case ReadOwner => phase.Busy? && Canonical in s.dirs && s.dirs[Canonical].Owned?
    case ProbeOwner(probe) => phase.Read? && Truthful(s.live, phase.owner.pid, probe)
    case Retire => phase.Sighted? && Canonical in s.dirs && CanReplace(s.dirs, Abandoned(phase.owner.token))
    case RetireFails => phase.Sighted?
    case VerifyGuard => phase.Held?
    case MoveReleased => phase.Verified? && Canonical in s.dirs && CanReplace(s.dirs, Released(phase.token))
    case MoveFails => phase.Verified?
    case VerifyMoved => phase.Moved?
    case FinishRelease => phase.Cleaning?
  }

  ghost predicate Enabled(s: State, a: Action) {
    match a
    case By(c, m) => CanMove(s, c, m)
    case Spawn(c, p) =>
      && c !in s.contenders && ProcessOk(p)
      && (p in s.live || (p !in s.born && forall q :: q in s.live ==> q.pid != p.pid))
    case Crash(p) => p in s.live
    case ReapStaging(t) => true
    case SweepOwner(t) => Released(t) in s.dirs && s.dirs[Released(t)].Owned?
    case SweepDirectory(t) => Released(t) in s.dirs && s.dirs[Released(t)].Empty?
  }

  ghost function Moves(s: State, c: nat, m: Move): State
    requires CanMove(s, c, m)
  {
    var phase := s.Phase(c);
    match m
    case Draw(t) => s.Goto(c, Drawn(t)).(issued := s.issued[t := s.contenders[c].process])
    case MakeStaging => s.Goto(c, Made(phase.token)).(dirs := s.dirs[Pending(phase.token) := Empty])
    case WriteOwner =>
      var staging := Pending(phase.token);
      if staging in s.dirs then
        s.Goto(c, Written(phase.token)).(
          dirs := s.dirs[staging := Owned(OwnerRecord(s.contenders[c].process, phase.token))])
      else s.Goto(c, Idle)
    case Publish => s.Goto(c, Held(phase.token)).(dirs := Renamed(s.dirs, Pending(phase.token), Canonical))
    case PublishFails(busy) =>
      s.Goto(c, if busy then Busy else Idle).(dirs := s.dirs - {Pending(phase.token)})
    case Retry => s.Goto(c, Idle)
    case ReadOwner => s.Goto(c, Read(s.dirs[Canonical].owner))
    case ProbeOwner(probe) => s.Goto(c, if OwnerIsAlive(phase.owner, probe) then Idle else Sighted(phase.owner))
    case Retire => s.Goto(c, Idle).(dirs := Renamed(s.dirs, Canonical, Abandoned(phase.owner.token)))
    case RetireFails => s.Goto(c, Idle)
    case VerifyGuard => s.Goto(c, if s.Carries(phase.token) then Verified(phase.token) else Idle)
    case MoveReleased =>
      s.Goto(c, Moved(phase.token)).(
        dirs := Renamed(s.dirs, Canonical, Released(phase.token)),
        released := s.released + (if s.dirs[Canonical].Owned? then {s.dirs[Canonical].owner.token} else {}))
    case MoveFails => s.Goto(c, if Canonical in s.dirs then Held(phase.token) else Idle)
    case VerifyMoved =>
      var tombstone := Released(phase.token);
      if tombstone !in s.dirs || s.dirs[tombstone].Empty? then s.Goto(c, Idle)
      else if s.dirs[tombstone].owner.token == phase.token then s.Goto(c, Cleaning(phase.token))
      else if Canonical !in s.dirs then s.Goto(c, Idle).(dirs := Renamed(s.dirs, tombstone, Canonical))
      else s.Goto(c, Idle)
    case FinishRelease => s.Goto(c, Idle)
  }

  ghost function Next(s: State, a: Action): State
    requires Enabled(s, a)
  {
    match a
    case By(c, m) => Moves(s, c, m)
    case Spawn(c, p) =>
      s.(born := s.born + {p}, live := s.live + {p}, contenders := s.contenders[c := Contender(p, Idle)])
    case Crash(p) => s.(live := s.live - {p})
    case ReapStaging(t) => s.(dirs := s.dirs - {Pending(t)})
    case SweepOwner(t) => s.(dirs := s.dirs[Released(t) := Empty])
    case SweepDirectory(t) => s.(dirs := s.dirs - {Released(t)})
  }

  ghost predicate Init(s: State) {
    s.dirs == map[] && s.contenders == map[] && s.issued == map[] && s.born == s.live == {} && s.released == {}
  }

  // ---------------------------------------------------------------------------------------------
  // The property, and the invariant behind it
  // ---------------------------------------------------------------------------------------------

  /** At most one live guard exists, and the canonical directory carries its token. */
  ghost predicate MutualExclusion(s: State) {
    && (forall c, d :: s.Guards(c) && s.Guards(d) ==> c == d)
    && (forall c :: s.Guards(c) ==> s.Carries(s.Phase(c).token))
  }

  ghost predicate ProcessesOk(s: State) {
    && s.live <= s.born
    && (forall p :: p in s.born ==> ProcessOk(p))
    && (forall p, q :: p in s.live && q in s.live && p.pid == q.pid ==> p == q)
    && (forall c :: c in s.contenders ==> s.contenders[c].process in s.born)
    && (forall t :: t in s.issued ==> s.issued[t] in s.born)
  }

  predicate SameToken(a: Phase, b: Phase) { a.HasToken() && b.HasToken() && a.token == b.token }

  ghost predicate TokensOk(s: State) {
    && (forall c :: c in s.contenders && s.Phase(c).HasToken() ==>
          s.Phase(c).token in s.issued && s.issued[s.Phase(c).token] == s.contenders[c].process)
    && (forall c, d :: c in s.contenders && d in s.contenders && SameToken(s.Phase(c), s.Phase(d)) ==> c == d)
  }

  /** Every owner record names the process that drew its token. */
  ghost predicate Genuine(s: State, o: Owner) {
    o.token in s.issued && o == OwnerRecord(s.issued[o.token], o.token)
  }

  /** The process that wrote the record runs no more. */
  ghost predicate OwnerIsGone(s: State, o: Owner) { Genuine(s, o) && s.issued[o.token] !in s.live }

  ghost predicate DirectoryOk(s: State, n: Name) {
    n in s.dirs ==>
      && (s.dirs[n].Owned? ==> Genuine(s, s.dirs[n].owner))
      && match n
         case Canonical => s.dirs[n].Owned?
         case Pending(t) => s.dirs[n].Owned? ==> s.dirs[n].owner.token == t
         case Released(t) => t in s.released && (s.dirs[n].Owned? ==> s.dirs[n].owner.token == t)
         case Abandoned(t) => s.dirs[n].Owned? && s.dirs[n].owner.token == t && s.issued[t] !in s.live
  }

  ghost predicate DirectoriesOk(s: State) { forall n :: DirectoryOk(s, n) }

  /** A token is in one place: not yet published, canonical, abandoned, or released. */
  ghost predicate PlacesOk(s: State) {
    && (forall t :: t in s.released ==> t in s.issued && !s.Carries(t) && Abandoned(t) !in s.dirs)
    && (forall t :: s.Carries(t) ==> Abandoned(t) !in s.dirs)
    && (forall t :: Abandoned(t) in s.dirs ==> t in s.issued)
  }

  ghost predicate ContenderOk(s: State, c: nat) {
    c in s.contenders ==>
      match s.Phase(c)
      case Drawn(t) => Fresh(s, t)
      case Made(t) => Fresh(s, t)
      case Written(t) =>
        Fresh(s, t) && (Pending(t) in s.dirs ==> s.dirs[Pending(t)].Owned?)
      case Read(o) => Genuine(s, o) && (s.Carries(o.token) || Abandoned(o.token) in s.dirs || o.token in s.released)
      case Sighted(o) =>
        && Genuine(s, o) && s.issued[o.token] !in s.live
        && (s.Carries(o.token) || Abandoned(o.token) in s.dirs || o.token in s.released)
      case Held(t) => s.Acts(c) ==> s.Carries(t)
      case Verified(t) => s.Acts(c) ==> s.Carries(t)
      case Moved(t) => t in s.released
      case _ => true
  }

  ghost predicate Fresh(s: State, t: Token) {
    t !in s.released && !s.Carries(t) && Abandoned(t) !in s.dirs
  }

  ghost predicate ContendersOk(s: State) { forall c :: ContenderOk(s, c) }

  ghost predicate Inv(s: State) {
    ProcessesOk(s) && TokensOk(s) && DirectoriesOk(s) && PlacesOk(s) && ContendersOk(s)
  }

  /** The one step that can hurt: renaming the canonical directory away on the strength of a
      sighted owner that had released, rather than been retired, in the meantime. */
  ghost predicate OnTime(s: State, a: Action) {
    a.By? && a.move.Retire? && a.c in s.contenders && s.Phase(a.c).Sighted? ==>
      s.Phase(a.c).owner.token !in s.released
  }

  lemma LiveOwnerIsNeverPresumedDead(s: State, p: Process, t: Token, probe: Probe)
    requires ProcessesOk(s) && p in s.live && Truthful(s.live, p.pid, probe)
    ensures OwnerIsAlive(OwnerRecord(p, t), probe)
  {
    assert ProcessOk(p);
  }

  /** An owner is presumed dead exactly when that is proved: its process is gone and its PID is nobody's,
      or the owner recorded an identity and the process now at its PID is known to have another. */
  lemma PresumedDeadExactlyWhenProved(s: State, o: Owner, probe: Probe)
    requires ProcessesOk(s) && Genuine(s, o) && Truthful(s.live, o.pid, probe)
    ensures !OwnerIsAlive(o, probe) <==>
            && s.issued[o.token] !in s.live
            && (|| (forall q :: q in s.live ==> q.pid != o.pid)
                || (probe.identityKnown && o.identity != "" && exists q :: q in s.live && q.pid == o.pid && q.native != o.identity))
  {
    assert ProcessOk(s.issued[o.token]);
    if s.issued[o.token] in s.live { LiveOwnerIsNeverPresumedDead(s, s.issued[o.token], o.token, probe); }
    if probe.alive {
      var q :| q in s.live && q.pid == o.pid;
      assert probe.identityKnown ==> probe.identity == q.native;
    }
  }

  lemma InvImpliesMutualExclusion(s: State)
    requires Inv(s)
    ensures MutualExclusion(s)
  {
    forall c | s.Guards(c) ensures s.Carries(s.Phase(c).token) { assert ContenderOk(s, c); }
  }

  lemma InvInit(s: State)
    requires Init(s)
    ensures Inv(s)
  {
  }

  // ---------------------------------------------------------------------------------------------
  // Every step keeps the invariant
  // ---------------------------------------------------------------------------------------------

  ghost predicate SameAt(s: State, s': State, n: Name) {
    && (n in s'.dirs <==> n in s.dirs)
    && (n in s.dirs ==> s'.dirs[n] == s.dirs[n])
  }

  /** How the canonical directory changes: it appears by a publication, leaves by a retirement or
      a release, and otherwise stays as it is. */
  lemma CanonicalMoves(s: State, c: nat, m: Move)
    requires Inv(s) && CanMove(s, c, m) && OnTime(s, By(c, m))
    ensures var s' := Moves(s, c, m);
            match m
            case Publish => Canonical !in s.dirs && s'.Carries(s.Phase(c).token)
            case Retire => s.Carries(s.Phase(c).owner.token) && Canonical !in s'.dirs
            case MoveReleased => s.Carries(s.Phase(c).token) && Canonical !in s'.dirs
            case _ => SameAt(s, s', Canonical)
  {
    assert DirectoryOk(s, Canonical) && ContenderOk(s, c);
    match m
    case Publish => assert DirectoryOk(s, Pending(s.Phase(c).token));
    case Retire => assert DirectoryOk(s, Abandoned(s.Phase(c).owner.token));
    case VerifyMoved => assert DirectoryOk(s, Released(s.Phase(c).token));
    case _ =>
  }

  /** A move changes one contender, and its token only by drawing a new one. */
  lemma OneContenderMoves(s: State, c: nat, m: Move)
    requires CanMove(s, c, m)
    ensures var s' := Moves(s, c, m);
            && s'.contenders == s.contenders[c := Contender(s.contenders[c].process, s'.Phase(c))]
            && s'.live == s.live && s'.born == s.born
            && (if m.Draw? then s'.Phase(c) == Drawn(m.token) && s'.issued == s.issued[m.token := s.contenders[c].process]
                else s'.issued == s.issued && (s'.Phase(c).HasToken() ==> SameToken(s'.Phase(c), s.Phase(c))))
  {
  }

  lemma TokensMove(s: State, c: nat, m: Move)
    requires TokensOk(s) && CanMove(s, c, m)
    ensures TokensOk(Moves(s, c, m))
  {
    OneContenderMoves(s, c, m);
    var s' := Moves(s, c, m);
    forall d, e | d in s'.contenders && e in s'.contenders && SameToken(s'.Phase(d), s'.Phase(e)) ensures d == e {
      if !m.Draw? {
        assert SameToken(s.Phase(d), s.Phase(e));
      }
    }
  }

  lemma PublishedDirectory(s: State, c: nat, n: Name)
    requires Inv(s) && CanMove(s, c, Publish)
    ensures DirectoryOk(Moves(s, c, Publish), n)
  {
    assert DirectoryOk(s, n) && DirectoryOk(s, Canonical) && ContenderOk(s, c);
    assert DirectoryOk(s, Pending(s.Phase(c).token));
  }

  lemma RetiredDirectory(s: State, c: nat, n: Name)
    requires Inv(s) && CanMove(s, c, Retire) && OnTime(s, By(c, Retire))
    ensures DirectoryOk(Moves(s, c, Retire), n)
  {
    CanonicalMoves(s, c, Retire);
    assert DirectoryOk(s, n) && DirectoryOk(s, Canonical) && ContenderOk(s, c);
  }

  lemma ReleasedDirectory(s: State, c: nat, n: Name)
    requires Inv(s) && CanMove(s, c, MoveReleased)
    ensures DirectoryOk(Moves(s, c, MoveReleased), n)
  {
    CanonicalMoves(s, c, MoveReleased);
    assert DirectoryOk(s, n) && DirectoryOk(s, Canonical) && ContenderOk(s, c);
  }

  lemma DirectoryMoves(s: State, c: nat, m: Move, n: Name)
    requires Inv(s) && CanMove(s, c, m) && OnTime(s, By(c, m))
    ensures DirectoryOk(Moves(s, c, m), n)
  {
    if m.Publish? {
      PublishedDirectory(s, c, n);
    } else if m.Retire? {
      RetiredDirectory(s, c, n);
    } else if m.MoveReleased? {
      ReleasedDirectory(s, c, n);
    } else {
      CanonicalMoves(s, c, m);
      assert DirectoryOk(s, n) && ContenderOk(s, c);
    }
  }

  lemma PlacesMove(s: State, c: nat, m: Move)
    requires Inv(s) && CanMove(s, c, m) && OnTime(s, By(c, m))
    ensures PlacesOk(Moves(s, c, m))
  {
    CanonicalMoves(s, c, m);
    assert ContenderOk(s, c) && DirectoryOk(s, Canonical);
  }

  lemma MoverOk(s: State, c: nat, m: Move)
    requires Inv(s) && CanMove(s, c, m) && OnTime(s, By(c, m))
    ensures ContenderOk(Moves(s, c, m), c)
  {
    CanonicalMoves(s, c, m);
    assert ContenderOk(s, c) && DirectoryOk(s, Canonical);
    if m.ProbeOwner? {
      var o := s.Phase(c).owner;
      if s.issued[o.token] in s.live { LiveOwnerIsNeverPresumedDead(s, s.issued[o.token], o.token, m.probe); }
    }
  }

  /** What a move leaves alone, seen by a contender holding another token. */
  lemma ForeignNames(s: State, c: nat, m: Move, t: Token)
    requires Inv(s) && CanMove(s, c, m) && OnTime(s, By(c, m))
    ensures var s' := Moves(s, c, m);
            && ((Abandoned(t) in s'.dirs) <==> (Abandoned(t) in s.dirs || (m.Retire? && s.Carries(t))))
            && (t in s'.released <==> t in s.released || (m.MoveReleased? && s.Carries(t)))
            && (!(s.Phase(c).HasToken() && s.Phase(c).token == t) ==>
                  SameAt(s, s', Pending(t)))
            && (s'.Carries(t) <==>
                  if m.Publish? then s.Phase(c).token == t
                  else !m.Retire? && !m.MoveReleased? && s.Carries(t))
  {
    CanonicalMoves(s, c, m);
    assert DirectoryOk(s, Canonical) && ContenderOk(s, c);
    if m.Retire? { assert DirectoryOk(s, Abandoned(s.Phase(c).owner.token)); }
  }

  lemma TokenBystanderOk(s: State, c: nat, m: Move, d: nat)
    requires Inv(s) && CanMove(s, c, m) && OnTime(s, By(c, m)) && d != c && d in s.contenders && s.Phase(d).HasToken()
    ensures ContenderOk(Moves(s, c, m), d)
  {
    OneContenderMoves(s, c, m);
    CanonicalMoves(s, c, m);
    assert ContenderOk(s, c) && ContenderOk(s, d) && DirectoryOk(s, Canonical);
    assert !SameToken(s.Phase(c), s.Phase(d));
    ForeignNames(s, c, m, s.Phase(d).token);
  }

  lemma SightingBystanderOk(s: State, c: nat, m: Move, d: nat)
    requires Inv(s) && CanMove(s, c, m) && OnTime(s, By(c, m)) && d != c && d in s.contenders && (s.Phase(d).Read? || s.Phase(d).Sighted?)
    ensures ContenderOk(Moves(s, c, m), d)
  {
    OneContenderMoves(s, c, m);
    CanonicalMoves(s, c, m);
    assert ContenderOk(s, c) && ContenderOk(s, d) && DirectoryOk(s, Canonical);
    ForeignNames(s, c, m, s.Phase(d).owner.token);
  }

  lemma BystanderOk(s: State, c: nat, m: Move, d: nat)
    requires Inv(s) && CanMove(s, c, m) && OnTime(s, By(c, m)) && d != c && d in s.contenders
    ensures ContenderOk(Moves(s, c, m), d)
  {
    OneContenderMoves(s, c, m);
    if s.Phase(d).HasToken() {
      TokenBystanderOk(s, c, m, d);
    } else if s.Phase(d).Read? || s.Phase(d).Sighted? {
      SightingBystanderOk(s, c, m, d);
    }
  }

  lemma EnvironmentDirectory(s: State, a: Action, n: Name)
    requires Inv(s) && Enabled(s, a) && !a.By?
    ensures DirectoryOk(Next(s, a), n)
    ensures n.Canonical? || n.Abandoned? ==> SameAt(s, Next(s, a), n)
    ensures n.Pending? && n in Next(s, a).dirs ==> SameAt(s, Next(s, a), n)
  {
    assert DirectoryOk(s, n);
  }

  lemma EnvironmentContender(s: State, a: Action, c: nat)
    requires Inv(s) && Enabled(s, a) && !a.By?
    ensures ContenderOk(Next(s, a), c)
  {
    assert ContenderOk(s, c);
    EnvironmentDirectory(s, a, Canonical);
    if c in s.contenders {
      var phase := s.Phase(c);
      if phase.HasToken() {
        EnvironmentDirectory(s, a, Pending(phase.token));
        EnvironmentDirectory(s, a, Abandoned(phase.token));
      } else if phase.Read? || phase.Sighted? {
        EnvironmentDirectory(s, a, Abandoned(phase.owner.token));
      }
    }
  }

  lemma EnvironmentProcesses(s: State, a: Action)
    requires Inv(s) && Enabled(s, a) && !a.By?
    ensures ProcessesOk(Next(s, a))
  {
  }

  lemma EnvironmentTokens(s: State, a: Action)
    requires Inv(s) && Enabled(s, a) && !a.By?
    ensures TokensOk(Next(s, a))
  {
    var s' := Next(s, a);
    forall c, d | c in s'.contenders && d in s'.contenders && SameToken(s'.Phase(c), s'.Phase(d)) ensures c == d {
      assert SameToken(s.Phase(c), s.Phase(d));
    }
  }

  lemma EnvironmentPlaces(s: State, a: Action)
    requires Inv(s) && Enabled(s, a) && !a.By?
    ensures PlacesOk(Next(s, a))
  {
    var s' := Next(s, a);
    assert s'.released == s.released && s'.issued == s.issued;
    EnvironmentDirectory(s, a, Canonical);
    forall t ensures s'.Carries(t) <==> s.Carries(t) {}
    forall t ensures Abandoned(t) in s'.dirs <==> Abandoned(t) in s.dirs { EnvironmentDirectory(s, a, Abandoned(t)); }
  }

  lemma EnvironmentStep(s: State, a: Action)
    requires Inv(s) && Enabled(s, a) && !a.By?
    ensures Inv(Next(s, a))
  {
    EnvironmentProcesses(s, a);
    EnvironmentTokens(s, a);
    EnvironmentPlaces(s, a);
    forall n ensures DirectoryOk(Next(s, a), n) { EnvironmentDirectory(s, a, n); }
    forall c ensures ContenderOk(Next(s, a), c) { EnvironmentContender(s, a, c); }
  }

  lemma InvStep(s: State, a: Action)
    requires Inv(s) && Enabled(s, a) && OnTime(s, a)
    ensures Inv(Next(s, a))
  {
    match a
    case By(c, m) =>
      OneContenderMoves(s, c, m);
      TokensMove(s, c, m);
      forall n ensures DirectoryOk(Next(s, a), n) { DirectoryMoves(s, c, m, n); }
      PlacesMove(s, c, m);
      forall d ensures ContenderOk(Next(s, a), d) {
        if d == c { MoverOk(s, c, m); } else if d in s.contenders { BystanderOk(s, c, m, d); }
      }
    case _ => EnvironmentStep(s, a);
  }

  // ---------------------------------------------------------------------------------------------
  // Whole runs
  // ---------------------------------------------------------------------------------------------

  /** The state a run of actions ends in, if the code allows each of them where it is taken. */
  ghost function After(s: State, run: seq<Action>): Option<State>
    decreases run
  {
    if run == [] then Some(s)
    else if Enabled(s, run[0]) then After(Next(s, run[0]), run[1..])
    else None
  }

  /** No retirement in the run acts on an owner that released meanwhile. */
  ghost predicate OnTimeThroughout(s: State, run: seq<Action>)
    decreases run
  {
    run != [] && Enabled(s, run[0]) ==> OnTime(s, run[0]) && OnTimeThroughout(Next(s, run[0]), run[1..])
  }

  /** At every probe that finds an owner dead, that owner had not released since it was read: the
      read and the probe behave as one observation. */
  ghost predicate Prompt(s: State, a: Action) {
    a.By? && a.move.ProbeOwner? && a.c in s.contenders && s.Phase(a.c).Read? ==>
      OwnerIsAlive(s.Phase(a.c).owner, a.move.probe) || s.Phase(a.c).owner.token !in s.released
  }

  ghost predicate PromptThroughout(s: State, run: seq<Action>)
    decreases run
  {
    run != [] && Enabled(s, run[0]) ==> Prompt(s, run[0]) && PromptThroughout(Next(s, run[0]), run[1..])
  }

  lemma {:induction false} InvAfter(s: State, run: seq<Action>)
    requires Inv(s) && OnTimeThroughout(s, run) && After(s, run).Some?
    ensures Inv(After(s, run).value)
    decreases run
  {
    if run != [] {
      InvStep(s, run[0]);
      InvAfter(Next(s, run[0]), run[1..]);
    }
  }

  /** Mutual exclusion, for any number of contenders, any interleaving and any crashes. */
  lemma MutualExclusionHolds(s: State, run: seq<Action>)
    requires Init(s) && OnTimeThroughout(s, run) && After(s, run).Some?
    ensures MutualExclusion(After(s, run).value)
  {
    InvInit(s);
    InvAfter(s, run);
    InvImpliesMutualExclusion(After(s, run).value);
  }

  ghost predicate NoStaleSighting(s: State) {
    forall c :: c in s.contenders && s.Phase(c).Sighted? ==> s.Phase(c).owner.token !in s.released
  }

  /** A dead owner releases nothing, so a prompt sighting stays good until it is acted on. */
  lemma PromptStep(s: State, a: Action)
    requires Inv(s) && NoStaleSighting(s) && Enabled(s, a) && Prompt(s, a)
    ensures OnTime(s, a) && NoStaleSighting(Next(s, a))
  {
    assert OnTime(s, a);
    var s' := Next(s, a);
    forall d | d in s'.contenders && s'.Phase(d).Sighted? ensures s'.Phase(d).owner.token !in s'.released {
      if a.By? {
        var c, m := a.c, a.move;
        OneContenderMoves(s, c, m);
        ForeignNames(s, c, m, s'.Phase(d).owner.token);
        if m.MoveReleased? {
          CanonicalMoves(s, c, m);
          assert ContenderOk(s, d);
        }
      }
    }
  }

  lemma {:induction false} PromptProbesKeepRetirementsOnTime(s: State, run: seq<Action>)
    requires Inv(s) && NoStaleSighting(s) && PromptThroughout(s, run)
    ensures OnTimeThroughout(s, run)
    decreases run
  {
    if run != [] && Enabled(s, run[0]) {
      PromptStep(s, run[0]);
      InvStep(s, run[0]);
      PromptProbesKeepRetirementsOnTime(Next(s, run[0]), run[1..]);
    }
  }

  /** With the owner read and the liveness probe taken as one observation, the lock excludes. */
  lemma PromptProbesExclude(s: State, run: seq<Action>)
    requires Init(s) && PromptThroughout(s, run) && After(s, run).Some?
    ensures MutualExclusion(After(s, run).value)
  {
    InvInit(s);
    PromptProbesKeepRetirementsOnTime(s, run);
    MutualExclusionHolds(s, run);
  }

  // ---------------------------------------------------------------------------------------------
  // Old sightings
  // ---------------------------------------------------------------------------------------------

  /** However old the sighting, a retirement that gets through moves the directory of exactly the
      dead owner that was sighted, and any later owner's lock makes the rename fail. */
  lemma OldSightingTakesOnlyTheDeadOwner(s: State, c: nat)
    requires Inv(s) && s.Acts(c) && s.Phase(c).Sighted? && s.Phase(c).owner.token !in s.released
    ensures CanMove(s, c, Retire) <==> s.Carries(s.Phase(c).owner.token)
    ensures CanMove(s, c, Retire) ==> s.dirs[Canonical] == Owned(s.Phase(c).owner)
    ensures Genuine(s, s.Phase(c).owner) && s.issued[s.Phase(c).owner.token] !in s.live
    ensures !s.Carries(s.Phase(c).owner.token) ==> Abandoned(s.Phase(c).owner.token) in s.dirs
  {
    assert ContenderOk(s, c) && DirectoryOk(s, Canonical);
    assert DirectoryOk(s, Abandoned(s.Phase(c).owner.token));
  }

  /** The first displacement of a run: up to it, a retirement takes a live guard's lock exactly when the
      sighted owner had released instead of being retired, and another guard is up. */
  lemma FirstDisplacementIsLate(s: State, c: nat)
    requires Inv(s) && CanMove(s, c, Retire)
    ensures !MutualExclusion(Moves(s, c, Retire)) <==>
            s.Phase(c).owner.token in s.released && exists d :: s.Guards(d)
  {
    var s' := Moves(s, c, Retire);
    assert ContenderOk(s, c) && DirectoryOk(s, Canonical);
    InvImpliesMutualExclusion(s);
    forall d ensures s'.Guards(d) <==> s.Guards(d) {}
    forall d | s.Guards(d) ensures s'.Phase(d) == s.Phase(d) && !s'.Carries(s'.Phase(d).token) {
      assert ContenderOk(s, d);
    }
    if s.Phase(c).owner.token !in s.released {
      OldSightingTakesOnlyTheDeadOwner(s, c);
      forall d ensures !s.Guards(d) { assert ContenderOk(s, d); }
    }
  }

  // ---------------------------------------------------------------------------------------------
  // Runs that can always, or must not, happen
  // ---------------------------------------------------------------------------------------------

  lemma {:induction false} AfterConcat(s: State, first: seq<Action>, second: seq<Action>)
    requires After(s, first).Some?
    ensures After(s, first + second) == After(After(s, first).value, second)
    decreases first
  {
    if first == [] {
      assert first + second == second;
    } else {
      assert (first + second)[1..] == first[1..] + second;
      AfterConcat(Next(s, first[0]), first[1..], second);
    }
  }

  lemma AfterOne(s: State, a: Action)
    requires Enabled(s, a)
    ensures After(s, [a]) == Some(Next(s, a))
  {
    assert After(Next(s, a), [a][1..]) == Some(Next(s, a));
  }

  /** Extends a run from `s` to `mid` by one action. */
  lemma Extend(s: State, run: seq<Action>, mid: State, a: Action) returns (longer: seq<Action>, next: State)
    requires After(s, run) == Some(mid) && Enabled(mid, a)
    ensures longer == run + [a] && next == Next(mid, a) && After(s, longer) == Some(next)
  {
    longer, next := run + [a], Next(mid, a);
    AfterConcat(s, run, [a]);
    AfterOne(mid, a);
  }

  /** Draws a token and writes a staging directory for it. */
  lemma Stages(s: State, run: seq<Action>, mid: State, c: nat, t: Token)
    returns (longer: seq<Action>, next: State)
    requires After(s, run) == Some(mid) && mid.Acts(c) && mid.Phase(c).Idle? && t !in mid.issued
    ensures After(s, longer) == Some(next)
    ensures next == mid.Goto(c, Written(t)).(
                      issued := mid.issued[t := mid.contenders[c].process],
                      dirs := mid.dirs[Pending(t) := Owned(OwnerRecord(mid.contenders[c].process, t))])
  {
    longer, next := Extend(s, run, mid, By(c, Draw(t)));
    longer, next := Extend(s, longer, next, By(c, MakeStaging));
    longer, next := Extend(s, longer, next, By(c, WriteOwner));
  }

  /** A free lock can be acquired. */
  lemma Acquires(s: State, run: seq<Action>, mid: State, c: nat, t: Token)
    returns (longer: seq<Action>, next: State)
    requires After(s, run) == Some(mid) && mid.Acts(c) && mid.Phase(c).Idle? && t !in mid.issued
    requires Canonical !in mid.dirs
    ensures After(s, longer) == Some(next)
    ensures next == mid.Goto(c, Held(t)).(
                      issued := mid.issued[t := mid.contenders[c].process],
                      dirs := (mid.dirs - {Pending(t)})[Canonical := Owned(OwnerRecord(mid.contenders[c].process, t))])
  {
    longer, next := Stages(s, run, mid, c, t);
    longer, next := Extend(s, longer, next, By(c, Publish));
  }

  /** A busy lock is read. */
  lemma Reads(s: State, run: seq<Action>, mid: State, c: nat, t: Token)
    returns (longer: seq<Action>, next: State)
    requires After(s, run) == Some(mid) && mid.Acts(c) && mid.Phase(c).Idle? && t !in mid.issued
    requires Canonical in mid.dirs && mid.dirs[Canonical].Owned?
    ensures After(s, longer) == Some(next)
    ensures next == mid.Goto(c, Read(mid.dirs[Canonical].owner)).(
                      issued := mid.issued[t := mid.contenders[c].process], dirs := mid.dirs - {Pending(t)})
  {
    longer, next := Stages(s, run, mid, c, t);
    longer, next := Extend(s, longer, next, By(c, PublishFails(true)));
    longer, next := Extend(s, longer, next, By(c, ReadOwner));
  }

  /** A crashed owner never wedges the lock: from every state the code can reach in which the owner's
      process is gone, a contender whose probe finds nobody at that PID, or learns an identity other
      than the recorded one, has a run in which it retires that owner, keeps its record in the tombstone,
      and gets the lock itself. */
  lemma DeadOwnerIsRecovered(s: State, c: nat, t: Token, u: Token, probe: Probe)
    returns (run: seq<Action>, next: State)
    requires Inv(s) && s.Acts(c) && s.Phase(c).Idle? && t !in s.issued && u !in s.issued && t != u
    requires Canonical in s.dirs && s.dirs[Canonical].Owned?
    requires OwnerIsGone(s, s.dirs[Canonical].owner)
    requires Truthful(s.live, s.dirs[Canonical].owner.pid, probe)
    requires var o := s.dirs[Canonical].owner;
             !probe.alive || (probe.identityKnown && o.identity != "" && probe.identity != o.identity)
    ensures After(s, run) == Some(next) && next.Guards(c) && next.Carries(u)
    ensures var tombstone := Abandoned(s.dirs[Canonical].owner.token);
            tombstone in next.dirs && next.dirs[tombstone] == s.dirs[Canonical]
  {
    var o := s.dirs[Canonical].owner;
    assert s.Carries(o.token) && DirectoryOk(s, Canonical);
    PresumedDeadExactlyWhenProved(s, o, probe);
    run, next := Reads(s, [], s, c, t);
    run, next := Extend(s, run, next, By(c, ProbeOwner(probe)));
    run, next := Extend(s, run, next, By(c, Retire));
    run, next := Acquires(s, run, next, c, u);
  }

  /** Without that promptness the lock does not exclude: contender 1 reads the owner, the owner
      releases and exits, contender 2 takes the free lock, and only then does contender 1 probe. No
      tombstone stops its rename, so it moves the live lock away and a second guard goes up. */
  lemma LateProbeBreaksExclusion() returns (s: State, run: seq<Action>, next: State)
    ensures Init(s) && After(s, run) == Some(next)
    ensures next.Guards(1) && next.Guards(2) && !MutualExclusion(next)
  {
    s, run, next := OwnerIsRead();
    run, next := OwnerReleasesAndExits(s, run, next);
    run, next := Acquires(s, run, next, 2, 12);
    run, next := LateProbe(s, run, next);
  }

  /** Its first part: contender 0 holds the lock and contender 1 has read its record. */
  lemma OwnerIsRead() returns (s: State, run: seq<Action>, next: State)
    ensures Init(s) && After(s, run) == Some(next)
    ensures next.live == {Process(7, "a", "a"), Process(8, "b", "b"), Process(9, "c", "c")}
    ensures next.dirs.Keys == {Canonical} && next.dirs[Canonical] == Owned(Owner(7, "a", 10))
    ensures next.contenders == map[0 := Contender(Process(7, "a", "a"), Held(10)),
                                   1 := Contender(Process(8, "b", "b"), Read(Owner(7, "a", 10))),
                                   2 := Contender(Process(9, "c", "c"), Idle)]
    ensures next.issued.Keys == {10, 11}
  {
    s := State(map[], {}, {}, map[], map[], {});
    run, next := Extend(s, [], s, Spawn(0, Process(7, "a", "a")));
    run, next := Extend(s, run, next, Spawn(1, Process(8, "b", "b")));
    run, next := Extend(s, run, next, Spawn(2, Process(9, "c", "c")));
    run, next := Acquires(s, run, next, 0, 10);
    run, next := Reads(s, run, next, 1, 11);
  }

  lemma OwnerReleasesAndExits(s: State, run: seq<Action>, mid: State) returns (longer: seq<Action>, next: State)
    requires After(s, run) == Some(mid) && mid.dirs.Keys == {Canonical} && mid.dirs[Canonical] == Owned(Owner(7, "a", 10))
    requires 0 in mid.contenders && mid.contenders[0] == Contender(Process(7, "a", "a"), Held(10)) && mid.Acts(0)
    ensures After(s, longer) == Some(next)
    ensures next.live == mid.live - {Process(7, "a", "a")} && next.issued == mid.issued
    ensures next.dirs.Keys == {Released(10)}
    ensures next.contenders == mid.contenders[0 := Contender(Process(7, "a", "a"), Moved(10))]
  {
    longer, next := Extend(s, run, mid, By(0, VerifyGuard));
    longer, next := Extend(s, longer, next, By(0, MoveReleased));
    longer, next := Extend(s, longer, next, Crash(Process(7, "a", "a")));
  }

  /** The last part of that run. */
  lemma LateProbe(s: State, run: seq<Action>, mid: State) returns (longer: seq<Action>, next: State)
    requires After(s, run) == Some(mid)
    requires mid.Acts(1) && mid.Phase(1) == Read(Owner(7, "a", 10)) && mid.Guards(2)
    requires Canonical in mid.dirs && Abandoned(10) !in mid.dirs && 13 !in mid.issued
    requires forall p :: p in mid.live ==> p.pid != 7
    ensures After(s, longer) == Some(next) && next.Guards(1) && next.Guards(2)
  {
    longer, next := Extend(s, run, mid, By(1, ProbeOwner(Probe(false, false, ""))));
    longer, next := Extend(s, longer, next, By(1, Retire));
    longer, next := Acquires(s, longer, next, 1, 13);
  }

  // ---------------------------------------------------------------------------------------------
  // Users of the lock may think of it as a mutex
  // ---------------------------------------------------------------------------------------------

  ghost predicate HeldBy(s: State, holder: Option<nat>) {
    match holder
    case Some(c) => s.Guards(c) && forall d :: s.Guards(d) ==> d == c
    case None => forall d :: !s.Guards(d)
  }

  /** Only publishing makes a guard, and only the guard that moves its lock away stops being one. */
  lemma GuardsMove(s: State, c: nat, m: Move)
    requires Inv(s) && CanMove(s, c, m) && OnTime(s, By(c, m))
    ensures forall d :: d != c ==> (Moves(s, c, m).Guards(d) <==> s.Guards(d))
    ensures Moves(s, c, m).Guards(c) <==> (if m.Publish? then true else if m.MoveReleased? then false else s.Guards(c))
    ensures m.MoveReleased? ==> s.Guards(c)
  {
    OneContenderMoves(s, c, m);
    CanonicalMoves(s, c, m);
    assert ContenderOk(s, c);
  }

  lemma PublishedWhenFree(s: State, c: nat, d: nat)
    requires Inv(s) && CanMove(s, c, Publish)
    ensures !s.Guards(d)
  {
    assert ContenderOk(s, d);
  }

  lemma MovesLikeAMutex(s: State, c: nat, m: Move, holder: Option<nat>)
    requires Inv(s) && CanMove(s, c, m) && OnTime(s, By(c, m)) && HeldBy(s, holder)
    ensures HeldBy(Moves(s, c, m), if m.Publish? then Some(c) else if m.MoveReleased? then None else holder)
    ensures m.Publish? ==> holder == None
    ensures m.MoveReleased? ==> holder == Some(c)
  {
    GuardsMove(s, c, m);
    if m.Publish? {
      forall d ensures !s.Guards(d) { PublishedWhenFree(s, c, d); }
    }
  }

  /** Seen from its users, every step is a mutex step: a free lock is taken by the contender whose
      publication succeeds; a held lock is given up only by its own holder's release, or by that
      holder's process crashing; every other step leaves the holder in place. */
  lemma StepsLikeAMutex(s: State, a: Action, holder: Option<nat>)
    requires Inv(s) && Enabled(s, a) && OnTime(s, a) && HeldBy(s, holder)
    ensures match a
            case By(c, Publish) => holder == None && HeldBy(Next(s, a), Some(c))
            case By(c, MoveReleased) => holder == Some(c) && HeldBy(Next(s, a), None)
            case Crash(p) =>
              HeldBy(Next(s, a), if holder.Some? && s.contenders[holder.value].process == p then None else holder)
            case _ => HeldBy(Next(s, a), holder)
  {
    if a.By? {
      MovesLikeAMutex(s, a.c, a.move, holder);
    } else {
      forall d | d in s.contenders && !(a.Crash? && s.contenders[d].process == a.process)
        ensures Next(s, a).Guards(d) <==> s.Guards(d) {}
    }
  }

  /** A live guard's Release gives up that guard's own directory: the token it reads back is its
      own, the rename cannot collide, and the moved record is never another owner's. */
  lemma ReleaseFindsItsOwnLock(s: State, c: nat)
    requires Inv(s) && s.Acts(c)
    ensures s.Phase(c).Held? ==> Moves(s, c, VerifyGuard).Phase(c) == Verified(s.Phase(c).token)
    ensures s.Phase(c).Verified? ==> CanMove(s, c, MoveReleased)
    ensures s.Phase(c).Moved? && Released(s.Phase(c).token) in s.dirs && s.dirs[Released(s.Phase(c).token)].Owned? ==>
              Moves(s, c, VerifyMoved) == s.Goto(c, Cleaning(s.Phase(c).token))
  {
    assert ContenderOk(s, c);
    if s.Phase(c).HasToken() { assert DirectoryOk(s, Released(s.Phase(c).token)); }
  }

  /** In every state whatever, a release touches nobody else's lock for good: it goes ahead only on its own
      token, and a directory that turns out to be another's once moved is put back where it was, unless a
      newer lock has taken the place. */
  lemma ReleaseSparesOthers(s: State, c: nat)
    requires s.Acts(c)
    ensures s.Phase(c).Held? ==>
              var next := Moves(s, c, VerifyGuard);
              next.dirs == s.dirs && (next.Phase(c).Verified? <==> s.Carries(s.Phase(c).token))
    ensures s.Phase(c).Moved? ==>
              var tombstone, next := Released(s.Phase(c).token), Moves(s, c, VerifyMoved);
              && (next.Phase(c).Cleaning? <==> tombstone in s.dirs && s.dirs[tombstone].Owned? && s.dirs[tombstone].owner.token == s.Phase(c).token)
              && (tombstone in s.dirs && s.dirs[tombstone].Owned? && s.dirs[tombstone].owner.token != s.Phase(c).token && Canonical !in s.dirs ==>
                    Canonical in next.dirs && next.dirs[Canonical] == s.dirs[tombstone] && tombstone !in next.dirs)
              && (Canonical in s.dirs ==> next.dirs == s.dirs)
  {
  }
}
