/**
 The state store (internal/state/store.go) on top of atomic file replacement
 (internal/atomicfile/atomicfile.go), as step machines over a directory of inodes.

 Any number of goroutines in any number of processes call Update and Read. An update takes the state
 lock, reads, mutates, validates, writes a temporary file named after its process, renames it over
 the state file and unlocks; every one of those steps may fail, and a process may crash between any
 two. The state lock is a mutex that a crash frees. The machine refines a store in which each
 successful update is one atomic step.
 */
module StateStore {
  import opened Common
  import opened RukState
  import opened Transitions
  import opened Decode
  import Lifecycle

  // ---------------------------------------------------------------------------------------------
  // The atomic store
  // ---------------------------------------------------------------------------------------------

  /** One call of Update; the ticket tells calls apart and is kept by no code. */
  datatype Job = Job(ticket: nat, mutate: State -> Result<State, Refusal>)

  ghost function Updated(s: State, mutate: State -> Result<State, Refusal>): Result<State, Refusal> {
    var next := mutate(s);
    if next.Ok? && !ValidState(next.value) then Err(Unencodable) else next
  }

  /** What the document holds after a series of updates. */
  ghost function Replay(log: seq<Job>): State {
    if log == [] then EMPTY_STATE
    else
      var before := Replay(log[..|log| - 1]);
      var next := Updated(before, log[|log| - 1].mutate);
      if next.Ok? then next.value else before
  }

  ghost predicate Accepted(log: seq<Job>) {
    forall i :: 0 <= i < |log| ==> Updated(Replay(log[..i]), log[i].mutate).Ok?
  }

  /** A lifecycle call is such an update. */
  lemma ApplyIsAnUpdate(s: State, c: Lifecycle.Command, env: Env)
    ensures Updated(s, (t: State) => Lifecycle.Mutated(t, c, env)) == Lifecycle.Apply(s, c, env)
  {
  }

  // ---------------------------------------------------------------------------------------------
  // The machine
  // ---------------------------------------------------------------------------------------------

  datatype Document = Torn | Whole(state: State)

  /** Open files keep their inode whatever happens to the names. */
  datatype Disk = Disk(inodes: map<nat, Document>, file: Option<nat>, temporaries: map<nat, nat>)

  datatype Phase =
    | Idle
    | Waiting(job: Job)
    | Locked(job: Job)
    | Loaded(job: Job, current: State)
    | Validated(job: Job, next: State)
    | Writing(job: Job, next: State)
    | Written(job: Job, next: State)
    | Replaced(job: Job)
    | Refused(job: Job)
    | Stuck(job: Job)
    | Reading(inode: Option<nat>, seen: nat)

  predicate HoldsLock(phase: Phase) { !phase.Idle? && !phase.Waiting? && !phase.Reading? }

  predicate Busy(phase: Phase) { !phase.Idle? && !phase.Reading? }

  datatype Worker = Worker(pid: nat, phase: Phase)

  /** `log` lists the committed updates, `tickets` the calls made, `reports` what callers were told,
      and `unreleased` the calls whose lock could not be given back. */
  datatype System = System(
    disk: Disk,
    workers: map<nat, Worker>,
    log: seq<Job>,
    tickets: set<nat>,
    reports: map<nat, bool>,
    unreleased: set<nat>)

  datatype Action =
    | Enter(w: nat, pid: nat)
    | Crash(w: nat)
    | Call(w: nat, job: Job)
    | GiveUp(w: nat)
    | Lock(w: nat)
    | Load(w: nat)
    | Mutate(w: nat)
    | OpenTemporary(w: nat, inode: nat)
    | Write(w: nat)
    | Rename(w: nat)
    | Fail(w: nat, removed: bool)
    | Unlock(w: nat, released: bool)
    | OpenToRead(w: nat)
    | FinishRead(w: nat)

  ghost predicate LockFree(s: System) { forall w :: w in s.workers ==> !HoldsLock(s.workers[w].phase) }

  ghost predicate Enabled(s: System, act: Action) {
    if act.Enter? then act.w !in s.workers
    else
      && act.w in s.workers
      && var phase, pid := s.workers[act.w].phase, s.workers[act.w].pid;
      match act
      case Crash(_) => true
      case Call(_, job) => phase.Idle? && job.ticket !in s.tickets
      case GiveUp(_) => phase.Waiting?
      case Lock(_) => phase.Waiting? && LockFree(s)
      case Load(_) => phase.Locked?
      case Mutate(_) => phase.Loaded?
      case OpenTemporary(_, inode) => phase.Validated? && (pid !in s.disk.temporaries ==> inode !in s.disk.inodes)
      case Write(_) => phase.Writing? && pid in s.disk.temporaries
      case Rename(_) => phase.Written? && pid in s.disk.temporaries
      case Fail(_, removed) =>
        phase.Locked? || phase.Loaded? || phase.Validated? || phase.Writing? || phase.Written?
      case Unlock(_, _) => phase.Replaced? || phase.Refused?
      case OpenToRead(_) => phase.Idle?
      case FinishRead(_) => phase.Reading?
      case Enter(_, _) => false
  }

  /** What a reader of this inode decodes; a missing file is the empty document. */
  function Decoded(disk: Disk, inode: Option<nat>): Option<State> {
    if inode.None? then Some(EMPTY_STATE)
    else if inode.value in disk.inodes && disk.inodes[inode.value].Whole? then Some(disk.inodes[inode.value].state)
    else None
  }

  function Goto(s: System, w: nat, phase: Phase): System
    requires w in s.workers
  {
    s.(workers := s.workers[w := s.workers[w].(phase := phase)])
  }

  ghost function Next(s: System, act: Action): System
    requires Enabled(s, act)
  {
    var disk := s.disk;
    match act
    case Enter(w, pid) => s.(workers := s.workers[w := Worker(pid, Idle)])
    case Crash(w) => s.(workers := s.workers - {w})
    case Call(w, job) => Goto(s.(tickets := s.tickets + {job.ticket}), w, Waiting(job))
    case GiveUp(w) => Goto(s.(reports := s.reports[s.workers[w].phase.job.ticket := false]), w, Idle)
    case Lock(w) => Goto(s, w, Locked(s.workers[w].phase.job))
    case Load(w) =>
      var job, current := s.workers[w].phase.job, Decoded(disk, disk.file);
      Goto(s, w, if current.Some? then Loaded(job, current.value) else Refused(job))
    case Mutate(w) =>
      var job := s.workers[w].phase.job;
      var next := Updated(s.workers[w].phase.current, job.mutate);
      Goto(s, w, if next.Ok? then Validated(job, next.value) else Refused(job))
    case OpenTemporary(w, unused) =>
      var pid, phase := s.workers[w].pid, s.workers[w].phase;
      var inode := if pid in disk.temporaries then disk.temporaries[pid] else unused;
      Goto(s.(disk := disk.(inodes := disk.inodes[inode := Torn], temporaries := disk.temporaries[pid := inode])),
           w, Writing(phase.job, phase.next))
    case Write(w) =>
      var phase := s.workers[w].phase;
      Goto(s.(disk := disk.(inodes := disk.inodes[disk.temporaries[s.workers[w].pid] := Whole(phase.next)])),
           w, Written(phase.job, phase.next))
    case Rename(w) =>
      var pid, job := s.workers[w].pid, s.workers[w].phase.job;
      Goto(s.(disk := disk.(file := Some(disk.temporaries[pid]), temporaries := disk.temporaries - {pid}), log := s.log + [job]),
           w, Replaced(job))
    case Fail(w, removed) =>
      var pid, phase := s.workers[w].pid, s.workers[w].phase;
      var wrote := phase.Writing? || phase.Written?;
      Goto(if removed && wrote then s.(disk := disk.(temporaries := disk.temporaries - {pid})) else s, w, Refused(phase.job))
    case Unlock(w, released) =>
      var phase := s.workers[w].phase;
      var told := s.(reports := s.reports[phase.job.ticket := released && phase.Replaced?]);
      if released then Goto(told, w, Idle)
      else Goto(told.(unreleased := s.unreleased + {phase.job.ticket}), w, Stuck(phase.job))
    case OpenToRead(w) => Goto(s, w, Reading(disk.file, |s.log|))
    case FinishRead(w) => Goto(s, w, Idle)
  }

  const FIRST_SYSTEM := System(Disk(map[], None, map[]), map[], [], {}, map[], {})

  // ---------------------------------------------------------------------------------------------
  // The invariant
  // ---------------------------------------------------------------------------------------------

  ghost predicate Separated(s: System) {
    && (forall p :: p in s.disk.temporaries ==> s.disk.temporaries[p] in s.disk.inodes)
    && (forall p, q :: p in s.disk.temporaries && q in s.disk.temporaries && s.disk.temporaries[p] == s.disk.temporaries[q] ==> p == q)
    && (s.disk.file.Some? ==> Settled(s.disk, s.disk.file.value))
  }

  /** An inode no temporary name leads to, so nothing writes to it any more. */
  ghost predicate Settled(disk: Disk, inode: nat) {
    inode in disk.inodes && forall p :: p in disk.temporaries ==> disk.temporaries[p] != inode
  }

  ghost predicate FileIsReplay(s: System) {
    && Accepted(s.log)
    && (s.disk.file.None? ==> s.log == [])
    && (s.disk.file.Some? ==> s.disk.file.value in s.disk.inodes && s.disk.inodes[s.disk.file.value] == Whole(Replay(s.log)))
  }

  ghost predicate WorkerOk(s: System, worker: Worker) {
    match worker.phase
    case Loaded(_, current) => current == Replay(s.log)
    case Validated(job, next) => Updated(Replay(s.log), job.mutate) == Ok(next)
    case Writing(job, next) => Updated(Replay(s.log), job.mutate) == Ok(next) && worker.pid in s.disk.temporaries
    case Written(job, next) =>
      && Updated(Replay(s.log), job.mutate) == Ok(next)
      && worker.pid in s.disk.temporaries && s.disk.temporaries[worker.pid] in s.disk.inodes
      && s.disk.inodes[s.disk.temporaries[worker.pid]] == Whole(next)
    case Reading(inode, seen) =>
      && seen <= |s.log| && (inode.None? ==> seen == 0)
      && (inode.Some? ==> Settled(s.disk, inode.value) && s.disk.inodes[inode.value] == Whole(Replay(s.log[..seen])))
    case _ => true
  }

  ghost predicate OneHolder(s: System) {
    forall v, w :: v in s.workers && w in s.workers && HoldsLock(s.workers[v].phase) && HoldsLock(s.workers[w].phase) ==> v == w
  }

  ghost predicate InLog(log: seq<Job>, ticket: nat) { exists i :: 0 <= i < |log| && log[i].ticket == ticket }

  ghost predicate TicketOk(s: System, phase: Phase) {
    Busy(phase) ==>
      && phase.job.ticket in s.tickets
      && (phase.Replaced? ==> InLog(s.log, phase.job.ticket))
      && (!phase.Replaced? && !phase.Stuck? ==> !InLog(s.log, phase.job.ticket))
      && (!phase.Stuck? ==> phase.job.ticket !in s.reports)
  }

  predicate SameTicket(x: Phase, y: Phase) { Busy(x) && Busy(y) && x.job.ticket == y.job.ticket }

  ghost predicate LogTicketsOk(s: System) {
    && (forall i :: 0 <= i < |s.log| ==> s.log[i].ticket in s.tickets)
    && (forall i, j :: 0 <= i < j < |s.log| ==> s.log[i].ticket != s.log[j].ticket)
  }

  /** Success is reported only of a committed call; failure of a committed call only when its lock
      could not be given back. */
  ghost predicate ReportsOk(s: System) {
    && (forall t :: t in s.reports ==> t in s.tickets && (s.reports[t] ==> InLog(s.log, t)))
    && (forall t :: t in s.reports && !s.reports[t] && InLog(s.log, t) ==> t in s.unreleased)
    && (forall t :: t in s.unreleased ==> t in s.reports && !s.reports[t])
  }

  ghost predicate TicketsOk(s: System) {
    && (forall w :: w in s.workers ==> TicketOk(s, s.workers[w].phase))
    && (forall v, w :: v in s.workers && w in s.workers && SameTicket(s.workers[v].phase, s.workers[w].phase) ==> v == w)
    && LogTicketsOk(s) && ReportsOk(s)
  }

  ghost predicate Inv(s: System) {
    && Separated(s) && FileIsReplay(s) && OneHolder(s) && TicketsOk(s)
    && forall w :: w in s.workers ==> WorkerOk(s, s.workers[w])
  }

  // ---------------------------------------------------------------------------------------------
  // Every step keeps it
  // ---------------------------------------------------------------------------------------------

  lemma LogGrows(log: seq<Job>, job: Job)
    ensures Replay(log + [job]) == (var next := Updated(Replay(log), job.mutate); if next.Ok? then next.value else Replay(log))
    ensures forall k :: 0 <= k <= |log| ==> (log + [job])[..k] == log[..k]
    ensures Accepted(log) && Updated(Replay(log), job.mutate).Ok? ==> Accepted(log + [job])
  {
    var longer := log + [job];
    assert longer[..|longer| - 1] == log;
    assert forall k :: 0 <= k <= |log| ==> longer[..k] == log[..k];
    if Accepted(log) && Updated(Replay(log), job.mutate).Ok? {
      forall i | 0 <= i < |longer| ensures Updated(Replay(longer[..i]), longer[i].mutate).Ok? {
        assert longer[..i] == log[..i];
        if i == |log| { assert log[..i] == log; }
      }
    }
  }

  lemma OpeningKeepsSeparated(s: System, act: Action)
    requires Separated(s) && act.OpenTemporary? && Enabled(s, act)
    ensures Separated(Next(s, act))
  {
  }

  lemma WritingKeepsSeparated(s: System, act: Action)
    requires Separated(s) && (act.Write? || act.Fail?) && Enabled(s, act)
    ensures Separated(Next(s, act))
  {
  }

  lemma RenamingKeepsSeparated(s: System, act: Action)
    requires Separated(s) && act.Rename? && Enabled(s, act)
    ensures Separated(Next(s, act))
  {
  }

  lemma StepKeepsSeparated(s: System, act: Action)
    requires Separated(s) && Enabled(s, act)
    ensures Separated(Next(s, act))
  {
    if act.OpenTemporary? {
      OpeningKeepsSeparated(s, act);
    } else if act.Write? || act.Fail? {
      WritingKeepsSeparated(s, act);
    } else if act.Rename? {
      RenamingKeepsSeparated(s, act);
    }
  }

  lemma StepKeepsOneHolder(s: System, act: Action)
    requires OneHolder(s) && Enabled(s, act)
    ensures OneHolder(Next(s, act))
  {
  }

  /** What a Read would decode now. */
  function Stored(s: System): Option<State> { Decoded(s.disk, s.disk.file) }

  lemma LogMoves(s: System, act: Action)
    requires Enabled(s, act)
    ensures Next(s, act).log == if act.Rename? then s.log + [s.workers[act.w].phase.job] else s.log
  {
  }

  /** Nothing but a rename touches the state file, and no one writes to the inode it names. */
  lemma OnlyRenamesChangeTheFile(s: System, act: Action)
    requires Separated(s) && Enabled(s, act) && !act.Rename?
    ensures Stored(Next(s, act)) == Stored(s)
  {
  }

  lemma FileNameStays(s: System, act: Action)
    requires Enabled(s, act) && !act.Rename?
    ensures Next(s, act).disk.file == s.disk.file
  {
  }

  lemma RenameKeepsFile(s: System, w: nat)
    requires Inv(s) && Enabled(s, Rename(w))
    ensures FileIsReplay(Next(s, Rename(w)))
  {
    assert WorkerOk(s, s.workers[w]);
    LogGrows(s.log, s.workers[w].phase.job);
  }

  lemma StepKeepsFile(s: System, act: Action)
    requires Inv(s) && Enabled(s, act)
    ensures FileIsReplay(Next(s, act))
  {
    if act.Rename? {
      RenameKeepsFile(s, act.w);
    } else {
      LogMoves(s, act);
      FileNameStays(s, act);
      OnlyRenamesChangeTheFile(s, act);
    }
  }

  lemma LogKnows(log: seq<Job>, job: Job)
    ensures forall t :: InLog(log + [job], t) <==> InLog(log, t) || t == job.ticket
  {
    var longer := log + [job];
    assert longer[|log|] == job;
    forall t ensures InLog(longer, t) <==> InLog(log, t) || t == job.ticket {
      if InLog(log, t) {
        var i :| 0 <= i < |log| && log[i].ticket == t;
        assert longer[i].ticket == t;
      }
    }
  }

  lemma MoverTicket(s: System, act: Action)
    requires TicketsOk(s) && Enabled(s, act) && act.w in s.workers && act.w in Next(s, act).workers
    ensures TicketOk(Next(s, act), Next(s, act).workers[act.w].phase)
    ensures forall v :: v in s.workers && v != act.w ==> !SameTicket(s.workers[v].phase, Next(s, act).workers[act.w].phase)
  {
    var phase := s.workers[act.w].phase;
    assert TicketOk(s, phase);
    if act.Rename? { LogKnows(s.log, phase.job); }
    forall v | v in s.workers && v != act.w ensures !SameTicket(s.workers[v].phase, Next(s, act).workers[act.w].phase) {
      assert TicketOk(s, s.workers[v].phase);
      assert !SameTicket(s.workers[v].phase, phase);
    }
  }

  lemma OtherTicket(s: System, act: Action, v: nat)
    requires TicketsOk(s) && Enabled(s, act) && v in s.workers && v != act.w
    ensures TicketOk(Next(s, act), s.workers[v].phase)
  {
    assert TicketOk(s, s.workers[v].phase);
    if act.w in s.workers {
      assert !SameTicket(s.workers[v].phase, s.workers[act.w].phase);
      if act.Rename? { LogKnows(s.log, s.workers[act.w].phase.job); }
    }
  }

  lemma StepKeepsLogTickets(s: System, act: Action)
    requires TicketsOk(s) && Enabled(s, act)
    ensures LogTicketsOk(Next(s, act))
  {
    if act.w in s.workers {
      assert TicketOk(s, s.workers[act.w].phase);
      if act.Rename? { LogKnows(s.log, s.workers[act.w].phase.job); }
    }
  }

  lemma StepKeepsReports(s: System, act: Action)
    requires TicketsOk(s) && Enabled(s, act)
    ensures ReportsOk(Next(s, act))
  {
    if act.w in s.workers {
      assert TicketOk(s, s.workers[act.w].phase);
      if act.Rename? { LogKnows(s.log, s.workers[act.w].phase.job); }
    }
  }

  lemma StepKeepsTickets(s: System, act: Action)
    requires TicketsOk(s) && Enabled(s, act)
    ensures TicketsOk(Next(s, act))
  {
    var s' := Next(s, act);
    StepKeepsLogTickets(s, act);
    StepKeepsReports(s, act);
    if act.w in s.workers && act.w in s'.workers { MoverTicket(s, act); }
    forall v | v in s'.workers ensures TicketOk(s', s'.workers[v].phase) {
      if v in s.workers && v != act.w { OtherTicket(s, act, v); }
    }
    forall v, w | v in s'.workers && w in s'.workers && SameTicket(s'.workers[v].phase, s'.workers[w].phase) ensures v == w {
      if v != act.w && w != act.w { assert SameTicket(s.workers[v].phase, s.workers[w].phase); }
    }
  }

  lemma WriterStaysOk(s: System, act: Action)
    requires Inv(s) && Enabled(s, act) && (act.OpenTemporary? || act.Write?)
    ensures WorkerOk(Next(s, act), Next(s, act).workers[act.w])
  {
    assert WorkerOk(s, s.workers[act.w]);
  }

  lemma ReaderStaysOk(s: System, act: Action)
    requires Inv(s) && Enabled(s, act) && (act.Load? || act.Mutate? || act.OpenToRead?)
    ensures WorkerOk(Next(s, act), Next(s, act).workers[act.w])
  {
    assert WorkerOk(s, s.workers[act.w]);
    assert s.log[..|s.log|] == s.log;
  }

  /** The worker that moves. */
  lemma MoverStaysOk(s: System, act: Action)
    requires Inv(s) && Enabled(s, act) && act.w in Next(s, act).workers
    ensures WorkerOk(Next(s, act), Next(s, act).workers[act.w])
  {
    if act.OpenTemporary? || act.Write? {
      WriterStaysOk(s, act);
    } else if act.Load? || act.Mutate? || act.OpenToRead? {
      ReaderStaysOk(s, act);
    }
  }

  lemma ReaderSurvivesRename(s: System, w: nat, v: nat)
    requires Inv(s) && Enabled(s, Rename(w)) && v in s.workers && v != w && s.workers[v].phase.Reading?
    ensures WorkerOk(Next(s, Rename(w)), s.workers[v])
  {
    assert WorkerOk(s, s.workers[v]);
    LogGrows(s.log, s.workers[w].phase.job);
  }

  lemma OthersSurviveRename(s: System, w: nat, v: nat)
    requires Inv(s) && Enabled(s, Rename(w)) && v in s.workers && v != w
    ensures WorkerOk(Next(s, Rename(w)), s.workers[v])
  {
    assert !HoldsLock(s.workers[v].phase);
    if s.workers[v].phase.Reading? { ReaderSurvivesRename(s, w, v); }
  }

  lemma OthersSurviveOpening(s: System, w: nat, inode: nat, v: nat)
    requires Inv(s) && Enabled(s, OpenTemporary(w, inode)) && v in s.workers && v != w
    ensures WorkerOk(Next(s, OpenTemporary(w, inode)), s.workers[v])
  {
    assert WorkerOk(s, s.workers[v]);
  }

  lemma OthersSurviveWriting(s: System, w: nat, v: nat)
    requires Inv(s) && Enabled(s, Write(w)) && v in s.workers && v != w
    ensures WorkerOk(Next(s, Write(w)), s.workers[v])
  {
    assert WorkerOk(s, s.workers[v]);
  }

  lemma OthersSurviveFailing(s: System, w: nat, removed: bool, v: nat)
    requires Inv(s) && Enabled(s, Fail(w, removed)) && v in s.workers && v != w
    ensures WorkerOk(Next(s, Fail(w, removed)), s.workers[v])
  {
    assert WorkerOk(s, s.workers[v]);
    assert !HoldsLock(s.workers[v].phase);
  }

  /** Everyone else: a worker inside the lock sees no one else inside it, and a reader's inode is
      never written. */
  lemma OthersStayOk(s: System, act: Action, v: nat)
    requires Inv(s) && Enabled(s, act) && v in s.workers && v != act.w
    ensures WorkerOk(Next(s, act), s.workers[v])
  {
    if act.Rename? {
      OthersSurviveRename(s, act.w, v);
    } else if act.OpenTemporary? {
      OthersSurviveOpening(s, act.w, act.inode, v);
    } else if act.Write? {
      OthersSurviveWriting(s, act.w, v);
    } else if act.Fail? {
      OthersSurviveFailing(s, act.w, act.removed, v);
    } else {
      assert WorkerOk(s, s.workers[v]);
    }
  }

  lemma OthersStayPut(s: System, act: Action, v: nat)
    requires Enabled(s, act) && v in Next(s, act).workers && v != act.w
    ensures v in s.workers && Next(s, act).workers[v] == s.workers[v]
  {
  }

  lemma WorkersStayOk(s: System, act: Action, s': System)
    requires Inv(s) && Enabled(s, act) && s' == Next(s, act)
    ensures forall v :: v in s'.workers ==> WorkerOk(s', s'.workers[v])
  {
    forall v | v in s'.workers ensures WorkerOk(s', s'.workers[v]) {
      if v == act.w {
        MoverStaysOk(s, act);
      } else {
        OthersStayPut(s, act, v);
        OthersStayOk(s, act, v);
      }
    }
  }

  lemma StepKeepsInv(s: System, act: Action)
    requires Inv(s) && Enabled(s, act)
    ensures Inv(Next(s, act))
  {
    StepKeepsSeparated(s, act);
    StepKeepsOneHolder(s, act);
    StepKeepsFile(s, act);
    StepKeepsTickets(s, act);
    WorkersStayOk(s, act, Next(s, act));
  }

  // ---------------------------------------------------------------------------------------------
  // Runs, and what they show
  // ---------------------------------------------------------------------------------------------

  ghost predicate CanRun(s: System, acts: seq<Action>)
    decreases acts
  {
    acts != [] ==> Enabled(s, acts[0]) && CanRun(Next(s, acts[0]), acts[1..])
  }

  ghost function Run(s: System, acts: seq<Action>): System
    requires CanRun(s, acts)
    decreases acts
  {
    if acts == [] then s else Run(Next(s, acts[0]), acts[1..])
  }

  /** Each step either leaves the document alone or is one atomic update of it, by the worker that
      renames. */
  lemma StepRefinesAtomicStore(s: System, act: Action)
    requires Inv(s) && Enabled(s, act)
    ensures !act.Rename? ==> Next(s, act).log == s.log && Stored(Next(s, act)) == Stored(s)
    ensures act.Rename? ==>
              && Stored(s).Some? && Stored(Next(s, act)).Some?
              && Updated(Stored(s).value, s.workers[act.w].phase.job.mutate) == Ok(Stored(Next(s, act)).value)
              && Next(s, act).log == s.log + [s.workers[act.w].phase.job]
  {
    LogMoves(s, act);
    if act.Rename? {
      assert WorkerOk(s, s.workers[act.w]);
    } else {
      OnlyRenamesChangeTheFile(s, act);
    }
  }

  lemma {:induction false} RunKeepsInv(s: System, acts: seq<Action>)
    requires Inv(s) && CanRun(s, acts)
    ensures Inv(Run(s, acts)) && s.log <= Run(s, acts).log
    decreases acts
  {
    if acts != [] {
      StepKeepsInv(s, acts[0]);
      LogMoves(s, acts[0]);
      var next := Next(s, acts[0]);
      assert s.log <= next.log;
      RunKeepsInv(next, acts[1..]);
    }
  }

  lemma {:induction false} ReplayIsValid(log: seq<Job>)
    ensures ValidState(Replay(log))
  {
    if log != [] { ReplayIsValid(log[..|log| - 1]); }
  }

  /** In every run the document is exactly the replay of the committed updates, one after another,
      each accepted by the document it found; nothing committed is ever dropped. */
  lemma NoUpdateIsLost(first: seq<Action>, second: seq<Action>)
    requires CanRun(FIRST_SYSTEM, first) && CanRun(Run(FIRST_SYSTEM, first), second)
    ensures var mid, last := Run(FIRST_SYSTEM, first), Run(Run(FIRST_SYSTEM, first), second);
            && mid.log <= last.log && Accepted(last.log)
            && Stored(last) == Some(Replay(last.log)) && ValidState(Replay(last.log))
  {
    RunKeepsInv(FIRST_SYSTEM, first);
    RunKeepsInv(Run(FIRST_SYSTEM, first), second);
    ReplayIsValid(Run(Run(FIRST_SYSTEM, first), second).log);
  }

  /** An unlocked Read decodes: it returns the valid document as it was committed when the file was
      opened, whatever was written since. */
  lemma ReadsSeeACommittedDocument(s: System, w: nat)
    requires Inv(s) && Enabled(s, FinishRead(w))
    ensures var phase := s.workers[w].phase;
            && phase.seen <= |s.log|
            && Decoded(s.disk, phase.inode) == Some(Replay(s.log[..phase.seen]))
            && ValidState(Replay(s.log[..phase.seen]))
  {
    var phase := s.workers[w].phase;
    assert WorkerOk(s, s.workers[w]);
    assert s.log[..0] == [];
    ReplayIsValid(s.log[..phase.seen]);
  }

  /** A call that reports success was committed exactly once; one that reports failure was not
      committed, unless all that failed was giving the lock back, which is never reported as success. */
  lemma ReportsMatchCommits(s: System, ticket: nat)
    requires Inv(s) && ticket in s.reports
    ensures s.reports[ticket] ==> exists i :: 0 <= i < |s.log| && s.log[i].ticket == ticket
    ensures forall i, j :: 0 <= i < |s.log| && 0 <= j < |s.log| && s.log[i].ticket == s.log[j].ticket == ticket ==> i == j
    ensures ticket in s.unreleased ==> !s.reports[ticket]
    ensures !s.reports[ticket] && ticket !in s.unreleased ==> forall i :: 0 <= i < |s.log| ==> s.log[i].ticket != ticket
  {
    assert s.reports[ticket] ==> InLog(s.log, ticket);
    if !s.reports[ticket] && ticket !in s.unreleased {
      forall i | 0 <= i < |s.log| ensures s.log[i].ticket != ticket {
        if s.log[i].ticket == ticket { assert InLog(s.log, ticket); }
      }
    }
  }
}
