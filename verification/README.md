# Ruk: verified core

Ruk hands Git worktrees to parallel agents. This project models the parts of Ruk whose correctness is
hard to see from any one function, and proves what they promise:

- `DirectoryLock`, `LockDisplacement`, `LockGuard` — the owner-fenced directory lock: any number of
  contenders and processes, one file system call at a time, crashes anywhere.
- `RukState`, `Decode`, `Transitions`, `Validity`, `Lifecycle`, `Service`, `Undo` — the durable state, the
  checks it must pass, every lifecycle call as a function of the record it edits, and the service as a
  class whose methods do exactly what those functions say.
- `Calendar`, `Fences`, `Ownership`, `Leases` — what every run of such calls keeps, whoever makes them and
  whatever the clock does, and exactly which calls the encode-time check refuses.
- `Effects`, `Provenance` — each call in its caller's terms: exactly when it is accepted, and what it writes in
  every field; and, over whole runs, that a stored document holds nothing nobody asked for.
- `Collection`, `Handoff`, `HandoffSafety`, `HandoffRuns`, `HandoffProgress`, `AcquireProgress`, `PoolLocks` —
  acquire, warm, release, sync, create, remove and garbage collection as step machines that take locks, call
  transitions and drive Git, side by side: what no interleaving breaks, and that every one of them can finish.
- `StateStore`, `AtomicFile` — the state file under interleaved, crashing updates.
- `PortIndex`, `PortRegistry`, `PortRuns` — the host-wide port registry as an index over many repositories'
  states, the transaction of one process, and that the second is a run of the first.
- `Heartbeat`, `BeatsAmongOthers`, `Release` — the activity runner's beats, and a release's drain, as loops
  over what the outside answers, and the beats on a document everybody else uses too.
- `ProcessTree`, `FingerprintStream`, `Fingerprint`, `FingerprintInputs`, `TailBuffers` — the sequential
  algorithms.
- `Common`, `Text`, `Sorting` — small shared definitions.

`dafny verify dfyconfig.toml` checks everything.

How the layers compose: `DirectoryLock.StepsLikeAMutex` shows that, as long as no retirement is late, the
directory lock behaves as a mutex that a crash frees; `StateStore`, `PortIndex` and `Handoff` take their
locks to be such mutexes, so what they show holds of runs without a late retirement. `StateStore` shows that
an update is one atomic step of the document; `StateStore.ApplyIsAnUpdate` ties that step to
`Lifecycle.Apply`, which `Service` implements and which `Handoff` and `PortIndex` interleave.

## Assumptions

- One host. Lock tokens, assignment, operation and keeper identifiers are fresh when drawn, on the whole
  host where several repositories meet, and the digests that turn a token into a tombstone name, or a path
  into a state key, are injective. The path drawn for a new workspace, which ends in fresh random digits,
  is one that never was a worktree and never had a record.
- Every canonical lock directory was published with its owner file, and stale staging directories are
  reaped in one step. A native probe never misses a live process.
- Times are integer milliseconds, leases whole milliseconds; a canonical timestamp exists exactly for the
  years 0 to 9999. Clocks are arbitrary and may run backward between any two reads, except where
  `Heartbeat` says that a runner reads the clock before the service does. A duration longer than the
  runtime can hold (about 292 years) is recorded as the longest one and told from every length that was
  not cut. Converting that record back overshoots the runtime's range, and a platform either saturates
  again or gets a time in the past.
- Git adds a worktree only where there is none, locks only one that is there, and removes only one that
  is there and not locked: forced once, as here, a removal does not override a lock. Nothing but the
  modelled commands adds, locks, unlocks or removes worktrees.
- A rename of a file is atomic, and an open file keeps its contents.

## Where the promise and the code differ

- Reading a lock's owner and probing that owner are two steps. `DirectoryLock.LateProbeBreaksExclusion`
  is a run in which the owner releases and exits between them, leaves no abandoned tombstone, and a later
  owner's lock is renamed away. `DirectoryLock.FirstDisplacementIsLate` says exactly when that first
  happens; it also puts a tombstone in the wrong place, after which a retirement that is not late can
  displace a live lock (`LockDisplacement.LateRetirementsChain`). Over whole runs, every retirement takes
  exactly what it sighted if and only if none is late
  (`LockDisplacement.RetirementsTakeTheirOwnExactlyWhenOnTime`), and exclusion holds throughout if and
  only if no retirement happens while a guard is up (`LockDisplacement.ExclusionFailsOnlyByAStrike`).
  `DirectoryLock.PromptProbesExclude` proves mutual exclusion when the two steps are one observation, and
  `DirectoryLock.MutualExclusionHolds` for every run without a late retirement.
- "Heartbeats never shorten a lease" holds for every lease whose length fits a duration. For one given by
  its end and longer than that, a heartbeat is refused or shortens it, by platform:
  `Leases.SaturatedHeartbeatIsRefusedOrShortens`, with an instance of either in
  `Leases.SomeHeartbeatIsRefusedOrShortens` and the exact condition in
  `Leases.HeartbeatShortensExactlyWhenSaturated`.
- A renewal that lengthens the heartbeat interval leaves the old keeper shorter than the new interval:
  another runner's heartbeat drops it exactly when its time is up
  (`Heartbeat.OthersDropExactlyTheLapsed`), and the next beat, in time, is refused
  (`Heartbeat.LengthenedIntervalCanLoseItsKeeper` is such a run). The lease still covers the gap
  (`Heartbeat.BeatsKeepWorkAlive`).
- A collection that gives up puts Git's lock back before it clears the fence
  (internal/lifecycle/gc_service.go:344-353). That holds within one collection, not across two: one that
  dies between taking Git's lock off and removing the worktree, followed by one that cannot list the
  worktrees, puts the workspace back into the pool without the lock
  (`PoolLocks.InterruptedCollectionUnlocksThePool`). `PoolLocks.PoolStaysLockedExactlyWhen` gives the exact
  condition over whole runs.
- `TailBuffer.truncated` is not "bytes were dropped": `TailBuffers.FlagMissesExactLimitWrites` gives the
  exact condition under which it stays unset.
- Some guards leave room for the encode-time check: `Fences.GuardedCallsEncode` says exactly what a guarded
  call can still be refused for, in terms of the call, the clock and the record it finds. Cancelling a
  collection checks nothing but the operation, so validity rests on such calls being given only operations
  a collection opened.
- The retry branch of `Guard.Release` never runs: every call leaves `releasedPath` empty
  (`LockGuard.Guard.Release`).

## Model

Rows that begin with **Main** are the results the others lead to.

| member | source | states |
|---|---|---|
| DirectoryLock.LiveOwnerIsNeverPresumedDead | internal/lock/lock.go:339-355 | a truthful probe never makes a live owner look dead, whatever identity it recorded |
| DirectoryLock.PresumedDeadExactlyWhenProved | internal/lock/lock.go:339-355 | **Main.** an owner is presumed dead if and only if its process is gone and either its PID is nobody's or the process there is known to have another identity than the one recorded; anything less leaves the lock alone |
| DirectoryLock.InvStep | internal/lock/lock.go:153-314 | every step of every contender, every crash and every sweep keeps the invariant on tokens, directories and phases, unless it is a late retirement |
| DirectoryLock.InvImpliesMutualExclusion | internal/lock/lock.go:136-151 | under the invariant at most one live guard exists and the canonical directory carries its token |
| DirectoryLock.MutualExclusionHolds | internal/lock/lock.go:153-275 | **Main.** over every run of any number of processes without a late retirement, mutual exclusion holds |
| DirectoryLock.PromptProbesExclude | internal/lock/lock.go:239-261 | **Main.** with the owner read and its probe as one observation, mutual exclusion holds over every run, however late the rename that follows |
| DirectoryLock.OldSightingTakesOnlyTheDeadOwner | internal/lock/lock.go:265-275 | a contender acting on an old sighting either takes the dead owner's own directory or fails; it never displaces a later owner |
| DirectoryLock.FirstDisplacementIsLate | internal/lock/lock.go:265-275 | the first displacement of a run: up to it, a retirement breaks mutual exclusion if and only if the sighted owner had released in the meantime and a guard is up |
| DirectoryLock.LateProbeBreaksExclusion | internal/lock/lock.go:239-261 | a concrete run with two live guards when read and probe are split |
| LockDisplacement.RetirementsTakeTheirOwnExactlyWhenOnTime | internal/lock/lock.go:239-275 | **Main.** over every run from the start, every retirement moves exactly the sighted owner's own directory if and only if none acts on an owner that released meanwhile |
| LockDisplacement.ExclusionFailsOnlyByAStrike | internal/lock/lock.go:153-314 | **Main.** over every run, with probes as late as they like, the lock excludes throughout if and only if no retirement happens while a guard is up |
| LockDisplacement.LateRetirementsChain | internal/lock/lock.go:265-275 | a run in which, after one late retirement, a retirement that is on time displaces a live guard |
| DirectoryLock.DeadOwnerIsRecovered | internal/lock/lock.go:217-263 | when the owner's process is gone, a contender whose probe finds nobody at the PID, or learns an identity other than the recorded one, has a run in which it retires that owner, leaves its tombstone, and gets the lock |
| DirectoryLock.StepsLikeAMutex | internal/lock/lock.go:136-151 | **Main.** as long as no retirement is late, each step takes a free lock, frees the holder's own, frees a crashed holder's, or leaves the holder alone |
| DirectoryLock.ReleaseFindsItsOwnLock | internal/lock/lock.go:365-457 | a guard's release finds its own lock in place, can move it away, and recognises what it moved |
| DirectoryLock.ReleaseSparesOthers | internal/lock/lock.go:396-446 | in every state, a release goes ahead only on its own token, and puts back another's directory it moved unless a newer lock took the place |
| LockGuard.Parent.Publish | internal/lock/lock.go:287-314 | a lock appears whole or not at all, exactly when nothing is in place, and no staging directory is left |
| LockGuard.Parent.RetireAbandoned | internal/lock/lock.go:265-277 | the directory moves to the dead owner's own tombstone, where a second retirement of that owner fails |
| LockGuard.Guard.Release | internal/lock/lock.go:365-457 | frees the path only if it still carries the guard's token; whatever others do meanwhile, no other owner's directory is lost and no tombstone is remembered |
| LockGuard.Guard.CleanupReleased | internal/lock/lock.go:366-386 | a tombstone is removed only while it carries the guard's token |
| LockGuard.UndisturbedReleaseFrees | internal/lock/lock.go:365-457 | release after publish leaves the directories as without the lock |
| LockGuard.ReleaseIsTheMachinesMoves | internal/lock/lock.go:365-457 | the guard's call is the sequence of moves the step machine interleaves |
| Decode.CheckProcesses | internal/state/decode.go:316-343 | the pass over tracked processes accepts exactly valid records with distinct PIDs |
| Decode.CheckKeepers | internal/state/decode.go:296-307 | the pass over keepers accepts exactly valid, distinct keepers |
| Decode.CheckPorts | internal/state/decode.go:308-312 | the pass over named ports accepts exactly non-empty names and ports in range |
| Decode.CheckAssignment | internal/state/decode.go:279-314 | the check of an assignment decides exactly the validity predicate |
| Decode.CheckWorkspace | internal/state/decode.go:226-268 | the check of a record decides exactly the validity predicate |
| Decode.CheckGlobalFences | internal/state/decode.go:345-371 | one pass with three seen-sets decides exactly that operations, assignments and ports are unique across records |
| Decode.CheckTrees | internal/state/decode.go:147-190 | the pass over tree records accepts exactly those with projections and, if any, a digest for them |
| Decode.CheckState | internal/state/decode.go:57-98 | **Main.** decoding accepts a document exactly when every tree and every record is valid, records under their own keys, and all fences are unique |
| Transitions.FindPidIsFirst | internal/lifecycle/retained_process.go:11-29 | the search by PID stops at the first match and at none before it |
| Transitions.FindProcessIsFirst | internal/lifecycle/process.go:44-75 | the search by exact identity stops at the first match |
| Transitions.ActiveKeepersAre | internal/lifecycle/activity.go:197-209 | filtering keeps exactly the retained keeper and those valid beyond the observation |
| Transitions.BeatenAre | internal/lifecycle/activity.go:84-106 | a beat moves its own keeper forward, never back, and no other |
| Transitions.OtherKeepersAre | internal/lifecycle/activity.go:138-156 | finishing keeps exactly the other keepers still valid |
| Validity.EditIsSoundExactlyWhenProper | internal/lifecycle/assignment.go:280-316 | **Main.** each of the twenty-one record edits, accepted by its own guards, yields a sound record if and only if the caller's data is well-formed |
| Calendar.EditStaysInCalendarExactlyWhenItFits | internal/state/decode.go:226-314 | **Main.** each record edit, accepted by its own guards, writes only representable timestamps if and only if the clock, the end asked for and the record's own times leave room, told before the call |
| Fences.EditIdentifiers | internal/lifecycle/assignment.go:280-316 | an edit changes a record's operation, assignment and ports only in the ways its kind allows, with fresh identifiers |
| Fences.DecisionShape | internal/lifecycle/assignment.go:261-268 | an accepted call writes one record: a new preparation, or one edit of the record it is addressed to |
| Fences.GuardedCallsEncode | internal/state/store.go:112-128 | **Main.** from any state a run can reach, a guarded call passes the encode-time check if and only if the caller's data is well-formed and every time and counter it would write is in range, each told from the call, the clock and the record it finds |
| Fences.StepKeepsWorldOk | internal/state/store.go:80-101 | every call keeps validity, known identifiers, and the kind of every operation fence |
| Fences.RunKeepsWorldOk | internal/state/store.go:80-101 | **Main.** so does every run of calls by any number of callers on any clock |
| Ownership.RecordStep | internal/state/store.go:80-101 | a record changes only by an edit addressed to it and disappears only by its fenced deletion |
| Ownership.MarkedLeavesOnlyByItsOperation | internal/lifecycle/assignment.go:149-215 | a marked assignment loses its marker only to a call carrying it, or by finishing the return such a call opened |
| Ownership.CollectingChangesOnlyByItsOperation | internal/lifecycle/collection.go:112-171 | a record fenced for collection changes only by calls carrying the operation and stays free of processes |
| Ownership.PreparationLeavesOnlyByItsOperation | internal/lifecycle/preparation.go:111-158 | a preparation ends only by a call carrying its operation or by a collection taking it over |
| Ownership.ReturningLeavesOnlyByItsReturn | internal/lifecycle/return.go:87-148 | a returning workspace leaves that state only when its return ends, and nothing registers a process with it |
| Ownership.SpentStaysRefused | internal/lifecycle/preparation.go:126-131 | **Main.** an operation that fences nothing any more is refused for ever |
| Ownership.TakenOverPreparerIsRefused | internal/lifecycle/collection.go:25-50 | **Main.** once collection takes over a preparation, every later call of the old preparer is refused without a trace |
| Ownership.AssignmentIdsAreFencingTokens | internal/lifecycle/assignment.go:261-268 | **Main.** an assignment identifier that left the state never reappears, and every later call carrying it is refused with the state unchanged |
| Ownership.GoneStaysGone | internal/lifecycle/assignment.go:280-316 | over every run, a used identifier that is absent stays absent |
| Leases.LeaseEdit | internal/lifecycle/activity.go:182-195 | what each kind of call may do to the lease it finds: renewal times never go back, a heartbeat moves the end by the lease's own length |
| Leases.RenewalsAreExact | internal/lifecycle/renewal.go:13-50 | an explicit renewal ends when asked, a restart runs its full length from no earlier than now; either is skipped exactly when overtaken |
| Leases.HeartbeatShortensExactlyWhenSaturated | internal/lifecycle/activity.go:182-195 | **Main.** an accepted heartbeat moves an expiry earlier if and only if the lease is recorded as the longest duration with more than that left; below it never |
| Leases.SaturatedHeartbeatIsRefusedOrShortens | internal/lifecycle/activity.go:182-195 | a heartbeat on such a lease is refused or shortens it, and refused on every platform whose conversion does not saturate |
| Leases.SomeHeartbeatIsRefusedOrShortens | internal/lifecycle/activity.go:182-195 | one lease of over 292 years, and the same heartbeat on either kind of platform |
| Leases.RenewedAtNeverGoesBack | internal/lifecycle/renewal.go:23-42 | **Main.** over every run RenewedAt never decreases while an assignment lives, and the assignment never moves to another workspace |
| Leases.ExplicitRenewalSurvivesAcquisition | internal/lifecycle/assignment.go:233-251 | **Main.** a renewal that lands during an acquisition is not overwritten by the later restart of the lease, whatever else happens around it |
| Leases.LeasesHoldThroughout | internal/lifecycle/activity.go:182-195 | **Main.** over every run each lease ends its own length after its last renewal, or is a saturated one |
| Undo.RemovalUndoesRegistration | internal/lifecycle/process.go:15-75 | registering and removing a process restores the record but for its timestamp |
| Undo.UntrackingUndoesTracking | internal/dependencies/ensure.go:263-360 | the same for installer tracking, with strictly increasing timestamps |
| Undo.CancelUndoesReturn | internal/lifecycle/return.go:118-148 | a cancelled return restores assignment, marker and processes |
| Undo.CancelUndoesCollection | internal/lifecycle/collection.go:112-141 | a cancelled collection restores a spare or failed workspace and leaves a preparation as a plain failure |
| Undo.FinishUndoesBegin | internal/lifecycle/activity.go:124-169 | taking a keeper down leaves exactly the others that have not lapsed |
| Undo.UseLeavesNoTrace | internal/lifecycle/return.go:87-116 | a workspace handed out and returned comes back as it was but for timestamps and branch |
| Effects.AcceptedExactlyWhen | internal/lifecycle/return.go:33-148 | **Main.** each of the twenty-one record edits is accepted on a valid record if and only if it carries what the record is fenced with, has seen what the record says, and asks for something that can be, told field by field |
| Effects.PathCallGoesThroughExactlyWhen | internal/lifecycle/collection.go:14-141 | **Main.** from any state a run can reach, a path-addressed call goes through, encode-time check included, if and only if its record is there and takes it, its data is well formed and its times are in range |
| Effects.AssignmentCallGoesThroughExactlyWhen | internal/lifecycle/activity.go:17-169 | the same for a call addressed by assignment, counters included |
| Effects.HandingOutWritesTheInput | internal/lifecycle/assignment.go:280-316 | an accepted reservation or publication names the input's owner and host, ends now plus the requested lease or else at the requested end, is on the requested branch if there is one, under the drawn identifier and marker; path, age and processes stay |
| Effects.PreparationMakesASpare | internal/lifecycle/preparation.go:51-158 | a preparation begun and finished, on any clocks, is a spare workspace on the branch asked for, as old as its beginning |
| Effects.TenureLasts | internal/lifecycle/renewal.go:13-50 | no other call changes who holds a workspace, from where or since when; only the end of a return takes it from them |
| Effects.PlaceIsAsAsked | internal/lifecycle/return.go:87-148 | where each call leaves lifecycle, fence, failure text and spare time |
| Effects.ProcessesAreAsAsked | internal/lifecycle/process.go:15-75 | a process taken in comes last, unless that very process is tracked; one taken out leaves the others in place; no other call touches them |
| Effects.KeepersAreAsAsked | internal/lifecycle/activity.go:17-169 | keepers come from heartbeats alone, each with the time it was given, and leave when taken down or lapsed |
| Effects.PortsAreAsAsked | internal/ports/allocation.go:109-115 | ports come from publication alone, all of them at once |
| Effects.ChangesAreDated | internal/lifecycle/retained_process.go:31-37 | which clock each written record carries, and exactly which calls find nothing left to do |
| Provenance.NothingIsMadeUp | internal/lifecycle/assignment.go:280-316 | **Main.** over every run, each stored assignment's owner and host are those of the call that drew its identifier, at the clock it saw; its ports and keepers were asked for under that identifier, each tracked process was handed in as it stands, and the branch was asked for |
| Provenance.CountersCountAcceptedCalls | internal/lifecycle/assignment.go:185-215 | **Main.** over every run the counters are the sums over the accepted calls, nothing twice and refused calls for nothing |
| Service.OldestIsUnique | internal/lifecycle/assignment.go:68-84 | the reservation order picks one record, however the map is visited |
| Service.FindAssignment | internal/lifecycle/assignment.go:261-268 | the search finds the record carrying an assignment, or that there is none |
| Service.FindOldest | internal/lifecycle/assignment.go:52-84 | picks an eligible record that became spare before every other eligible one, or with it and of the lesser path, or finds that none is eligible |
| Service.Repository.Commit | internal/state/store.go:112-132 | a document replaces the stored one exactly when it is valid |
| Service.Repository.BeginPreparation | internal/lifecycle/preparation.go:51-90 | does exactly what the specified call does, refusals included |
| Service.Repository.UpdateAt | internal/lifecycle/preparation.go:111-158 | every path-addressed call does exactly what is specified, on a record that accepts it; a preparation is published for the owner and host given, until the end given |
| Service.Repository.UpdateFor | internal/lifecycle/return.go:33-148 | every assignment-addressed call does exactly what is specified, on a record that carries the identifier and accepts it |
| Service.Repository.Reserve | internal/lifecycle/assignment.go:30-98 | hands out the oldest available workspace to the owner and host given, until the end given and on the branch given, or none exactly when none is eligible |
| Service.Repository.DeleteRecord | internal/lifecycle/collection.go:143-171 | deletes exactly the record whose fence it carries |
| Service.Repository.Record | internal/dependencies/ensure.go:467-492 | preparation counters and tree records are stored as specified |
| Collection.CandidateUnlessProtected | internal/lifecycle/gc.go:89-147 | a valid workspace is a candidate exactly when it is not protected, and needs force exactly when its lease is over and its acquisition not abandoned |
| Collection.ReasonSaysWhy | internal/lifecycle/gc.go:95-146 | the reason given is the record's own: its lifecycle, its fence, and its age or the end of its lease and of every keeper |
| Collection.FencedIsPassedOver | internal/lifecycle/gc.go:95-146 | without abandoned work included, a fenced workspace is a candidate only for a lease that is over |
| Collection.NothingLeaks | internal/lifecycle/gc.go:89-147 | **Main.** once cutoff and clock pass everything recorded, every valid workspace is a candidate |
| Collection.ValidStatesAreClassifiable | internal/lifecycle/gc.go:89-147 | no valid state stops the classification |
| Collection.IdentifyGCCandidates | internal/lifecycle/gc.go:54-87 | **Main.** the plan names every candidate once, in path order, and nothing else |
| Sorting.SortIsStrict | internal/lifecycle/gc.go:83-86 | sorting by distinct keys is strictly ascending |
| HandoffSafety.WantsAboveHeld | internal/lifecycle/acquire_service.go:246-286 | every command takes locks in strictly increasing rank |
| HandoffSafety.LocksStep | internal/lifecycle/gc_service.go:118-124 | no two commands ever hold the same lock |
| HandoffSafety.CallsFit | internal/lifecycle/gc_service.go:230-291 | which call a command may make says what it holds and works on |
| HandoffSafety.RecordSurvives | internal/lifecycle/acquire_service.go:404-521 | a running preparation, acquisition, collection or drain finds its record as it left it after any call of any other command |
| HandoffSafety.NewClaimIsFree | internal/lifecycle/warm_service.go:150-188 | work starts only where no one else has work in progress |
| HandoffRuns.NextKeepsReached | internal/lifecycle/gc_service.go:230-291 | every step of every command keeps locks exclusive, claims exclusive, records as left, removed things removed, locked worktrees locked, made worktrees there, and removals on paths without a record |
| HandoffRuns.EveryRunStaysInOrder | internal/lifecycle/acquire_service.go:148-286 | **Main.** so does every run from an empty state, crashes anywhere |
| HandoffRuns.SomeHolderRuns | internal/lifecycle/acquire_service.go:191-286 | **Main.** no cyclic wait: some holder of a lock is not waiting |
| HandoffRuns.WorkInProgressIsNeverTaken | internal/lifecycle/gc_service.go:230-315 | **Main.** over every interleaving with every other command, create and remove included, running work keeps its record, its tree entry, Git's lock and, once made, its directory, and nobody else gets to work on its workspace |
| HandoffRuns.UsedPathsStayBare | internal/cli/mutation_ports.go:43-48 | over every run, a path that was used and has no record never gets one again |
| HandoffRuns.RemovalsSpareManaged | internal/cli/remove_command.go:32-84 | **Main.** although it looks for a record before it has the handoff lock and not again under it, what a removal takes has no record and never gets one |
| HandoffRuns.CreateMeetsOnlyCreating | internal/cli/create_command.go:111-239 | a create, which looks for no record at all, gets to touch the worktree of work in progress only before that work has made its own |
| HandoffRuns.UnassignedUntracksOnlyTheGone | internal/lifecycle/gc_service.go:371-399 | over every step, a process leaves an unassigned record only by its installer's own untracking, or by a collection that saw that very process gone under the handoff lock |
| HandoffRuns.LiveLeasesAreNeverTaken | internal/lifecycle/gc_service.go:245-284 | **Main.** an assignment is taken from its owner only by an explicit release, by forced collection after its lease as stored at that moment ended, or, if its acquisition never finished, when older than the cutoff |
| HandoffRuns.RecordsGoLast | internal/lifecycle/gc_service.go:317-363 | **Main.** a record is deleted only after its worktree and tree entry are gone, by the command whose fence it carries |
| HandoffRuns.DrainStartsWithEverything | internal/lifecycle/return.go:33-85 | an accepted return tracks every process the record held when the fence went up |
| HandoffRuns.PublishedOnlyWhenDrained | internal/lifecycle/release_service.go:183-209 | **Main.** a workspace is published only when every tracked process was observed gone after the fence and nothing is tracked |
| HandoffRuns.CancelRestoresOwnership | internal/lifecycle/release_service.go:370-381 | **Main.** giving up a release restores ownership with its marker, exactly when the restoring write carries a reason and a representable time |
| HandoffProgress.DueIsRemoved | internal/lifecycle/gc_service.go:230-399 | **Main.** nothing is stuck: when no command holds a lock, a run exists in which collection removes any workspace its plan names (with force, where a lease is over), through its return and the drain of its processes, directory, tree entry and record; only an expired lease with a young acquisition has to wait |
| HandoffProgress.ReturnsExactlyUnlessAcquiring | internal/lifecycle/gc_service.go:250-282 | collection's return of an assigned candidate is accepted if and only if it is not an expired lease under an unfinished acquisition, which is refused as in progress |
| HandoffProgress.FenceGoesUp | internal/lifecycle/collection.go:14-54 | over such a workspace the collection fence is always accepted |
| AcquireProgress.SpareIsHandedOut | internal/lifecycle/acquire_service.go:374-436 | **Main.** when no command holds a lock, a command can acquire any spare workspace all the way: assigned to whom it was asked for, under an identifier nobody used, its marker gone, and no other record changed |
| AcquireProgress.NewIsHandedOut | internal/lifecycle/acquire_service.go:438-521 | **Main.** and it can make one where none ever was, directory and Git's lock in place, and finish in the same way |
| AcquireProgress.SpareIsMade | internal/lifecycle/warm_service.go:232-262 | a warming command can add a spare workspace to the pool all the way |
| AcquireProgress.AssignmentIsReleased | internal/lifecycle/release_service.go:183-209 | **Main.** an assignment whose acquisition is finished can be released all the way: fenced, drained of whatever it tracks, and spare again |
| AcquireProgress.FailureIsRetained | internal/lifecycle/assignment.go:149-183 | an acquisition that fails after handing out can leave the workspace with its owner, unmarked, with the reason |
| AcquireProgress.FailedPreparationIsKept | internal/lifecycle/acquire_service.go:607-619 | a preparation that fails anywhere can be recorded as a failure with its reason |
| AcquireProgress.ReleaseIsGivenUp | internal/lifecycle/release_service.go:370-381 | a release can be given up wherever its drain stands, and gives assignment, marker and what is still tracked back with the reason |
| AcquireProgress.LostIsTriedAgain | internal/lifecycle/acquire_service.go:262-286 | a reservation lost to somebody else leads back to the choice |
| AcquireProgress.WorktreeIsCreated | internal/cli/create_command.go:111-239 | a create can finish wherever there is no worktree, and changes nothing else |
| AcquireProgress.WorktreeIsRemoved | internal/cli/remove_command.go:32-84 | a remove can finish on any unlocked worktree without a record, directory and tree entry gone |
| PoolLocks.StepKeepsPoolExactlyWhen | internal/lifecycle/gc_service.go:340-353 | a step of any command leaves every pooled or owned worktree locked if and only if it does not cancel a collection on a spare workspace without the lock |
| PoolLocks.PoolStaysLockedExactlyWhen | internal/lifecycle/gc_service.go:461-473 | **Main.** so over every run from an empty state, crashes anywhere |
| PoolLocks.InterruptedCollectionUnlocksThePool | internal/lifecycle/gc_service.go:340-353 | from any state with a collectable spare workspace, an interrupted collection and a cancelled one put it back into the pool unlocked |
| StateStore.ApplyIsAnUpdate | internal/state/store.go:80-101 | a lifecycle call is one update of the store |
| StateStore.StepKeepsInv | internal/state/store.go:80-101 | every step of every update, read and crash keeps the invariant |
| StateStore.OnlyRenamesChangeTheFile | internal/atomicfile/atomicfile.go:16-53 | nothing but a rename touches the state file, and no one writes to the inode it names |
| StateStore.StepRefinesAtomicStore | internal/state/store.go:80-101 | **Main.** each step leaves the document alone or moves it from s to a validated mutate(s) |
| StateStore.NoUpdateIsLost | internal/state/store.go:80-101 | **Main.** over every run the document is the replay of all committed updates in order, each accepted by what it found |
| StateStore.ReadsSeeACommittedDocument | internal/state/store.go:61-78 | **Main.** an unlocked Read returns the valid document committed when it opened the file |
| StateStore.ReportsMatchCommits | internal/state/store.go:80-101 | **Main.** success was committed exactly once; failure was not, unless only giving back the lock failed, which is never reported as success |
| AtomicFile.Directory.Read | internal/state/store.go:61-78 | a missing file is the empty document; anything but a whole valid document is an error |
| AtomicFile.Directory.Replace | internal/atomicfile/atomicfile.go:16-53 | success exactly when the new contents are in place; failure leaves the file as it was; only this process's temporary is touched |
| AtomicFile.Directory.Update | internal/state/store.go:80-101 | replaces the document by the validated mutation or leaves it alone |
| PortIndex.UpdatesPublishNothing | internal/lifecycle/assignment.go:280-316 | no lifecycle call makes a repository publish a port it did not publish before |
| PortIndex.PublishingGivesTheChosen | internal/ports/allocation.go:109-115 | publication gives one assignment exactly the chosen ports and leaves the others theirs |
| PortIndex.ReleasingKeepsIndex | internal/ports/registry.go:256-269 | releasing a retired assignment drops no other's entries, in any repository |
| PortIndex.StepKeepsInv | internal/ports/registry.go:308-363 | every step of allocation, release, pruning and other calls keeps the index in agreement, and one transaction at a time |
| PortIndex.IndexAgreesAfterEveryRun | internal/ports/allocation.go:65-117 | **Main.** after any run of any number of repositories, crashes included, every published port is entered for exactly its assignment and state file |
| PortIndex.PortsAreUniqueOnTheHost | internal/ports/allocation.go:65-117 | **Main.** no two assignments on the host publish the same port |
| PortRegistry.CheckActive | internal/ports/registry.go:111-141 | an entry is active exactly when some record of its state file, in whatever lifecycle, carries its identifier and has the port; only an untrustworthy file is an error |
| PortRegistry.PruneInactive | internal/ports/registry.go:348-363 | keeps exactly the entries of which some record of the state file, in whatever lifecycle, carries the identifier and has the port, or fails without change |
| PortRegistry.ReservationTransaction.Reserve | internal/ports/registry.go:233-251 | another assignment's reservation is never overwritten |
| PortRegistry.ReservationTransaction.Release | internal/ports/registry.go:256-269 | drops exactly the assignment's ports; releasing again changes nothing |
| PortRegistry.ReservationTransaction.Commit | internal/ports/registry.go:274-296 | writes the registry at most once |
| PortRegistry.ReleasePorts | internal/ports/registry.go:378-382 | prunes what no record publishes any more, drops the assignment's ports and commits, or changes nothing |
| PortRegistry.ReserveNames | internal/ports/allocation.go:78-108 | each name gets its own port, free in the registry and in every managed workspace, whatever the finder answers |
| PortRegistry.Allocate | internal/ports/allocation.go:50-122 | **Main.** registry first, then state: what is published is what was entered, no port is given out that any record anywhere still publishes as its entry says, and a failure leaves the document alone |
| PortRuns.BackedIsActive | internal/ports/registry.go:111-141 | over the repositories' whole documents, what the prune asks of an entry is what the index is about |
| PortRuns.PruneInactiveIsTheMachinesPrune | internal/ports/registry.go:348-363 | the table one process prunes to is the one the machine's finished prune holds |
| PortRuns.AllocationIsARun | internal/ports/allocation.go:65-117 | **Main.** a successful allocation by one process is a run of the machine, from the registry and documents it found to those it left |
| PortRuns.ReleaseIsARun | internal/ports/registry.go:378-382 | and so is a release of a retired assignment's ports |
| PortRuns.AllocationKeepsIndex | internal/ports/allocation.go:65-117 | **Main.** so an allocation leaves the host's index in agreement and gives out no port that any repository publishes, in any lifecycle |
| Heartbeat.WindowWithinLease | internal/cli/activity_runner.go:199-214 | two intervals end before the lease they come from, and last a millisecond exactly when the lease lasts two |
| Heartbeat.IntervalIsAThird | internal/cli/activity_runner.go:199-214 | the interval is a third of the lease, to within a nanosecond, up to five minutes |
| Heartbeat.BegunWatchIsOk | internal/lifecycle/activity.go:17-62 | a registered keeper covers the first gap |
| Heartbeat.MoveKeepsWatch | internal/lifecycle/activity.go:65-122 | beats and everybody else's calls keep the cover |
| Heartbeat.KeeperSurvives | internal/lifecycle/activity.go:197-209 | no other call on any backward clock drops a keeper before its time, unless the lease was renewed past it |
| Heartbeat.BeatsKeepWorkAlive | internal/cli/activity_runner.go:103-171 | **Main.** beats less than two intervals apart keep the assignment from ever being an expired candidate, by the lease unless its expiry was moved earlier, and by the keeper alone while the interval is unchanged |
| Heartbeat.OnlyRenewalsShorten | internal/lifecycle/renewal.go:23-42 | only renewals and heartbeats on saturated leases move an expiry earlier |
| Heartbeat.BeatIsAcceptedExactlyWhen | internal/lifecycle/activity.go:65-122 | the exact condition under which a beat is accepted |
| Heartbeat.OthersDropExactlyTheLapsed | internal/lifecycle/activity.go:197-209 | another runner's heartbeat drops a keeper if and only if its time is up by the later of the clock and the last renewal |
| Heartbeat.LengthenedIntervalCanLoseItsKeeper | internal/cli/activity_runner.go:143-160 | a run from the runner's registration on: a renewal, a beat, another runner's heartbeat, and the next beat, in time, refused |
| Heartbeat.Run | internal/cli/activity_runner.go:84-178 | the loop beats as specified until done or failed and then always takes its keeper down |
| BeatsAmongOthers.RegistrationStands | internal/cli/activity_runner.go:104-114 | the runner's accepted registration is where its cover starts |
| BeatsAmongOthers.HappeningsAreMoves | internal/cli/activity_runner.go:123-171 | as long as no beat fails and beats come less than two intervals apart, the loop's beats and everybody else's calls on the document are moves of a watch on its record |
| BeatsAmongOthers.WorkStaysAlive | internal/cli/activity_runner.go:84-178 | **Main.** whoever else does what to the document in between, the assignment is never an expired candidate by any clock before the next beat is due, unless its expiry was moved earlier in the gap after a beat that lengthened the interval |
| BeatsAmongOthers.AloneItIsTheLoop | internal/cli/activity_runner.go:84-178 | with nobody else, what happens is what Heartbeat.Run is proved to do |
| BeatsAmongOthers.LoopKeepsWorkAlive | internal/cli/activity_runner.go:84-178 | and then the assignment is never an expired candidate before the next beat is due |
| Release.WaitForProcessDrain | internal/lifecycle/release_service.go:311-355 | reports a drain exactly when a poll saw the process gone, and otherwise whether the last look saw it |
| Release.CleanOne | internal/lifecycle/release_service.go:279-302 | a process counts as gone exactly when it was seen gone at once, after a stop, or, when forced after a look that saw it alive, after a kill; never when the first look could not tell |
| Release.CleanProcesses | internal/lifecycle/release_service.go:276-309 | records are removed one by one, each after its process was observed gone |
| Release.CleanedMeansGone | internal/lifecycle/release_service.go:276-309 | a cleanup that did not fail has, for every process, a look that saw it gone; looks after a kill count only when forced, after one that saw it alive |
| Release.CleanupRemovesInOrder | internal/lifecycle/release_service.go:276-309 | wherever a cleanup stops, exactly the records it got through are removed; fence, assignment and marker stay |
| Release.ReleasedMeansDrained | internal/lifecycle/release_service.go:183-209 | **Main.** a successful release has, for every tracked process, a look that saw it gone, and left the workspace available with nothing tracked |
| Release.UnknownFailsRelease | internal/lifecycle/release_service.go:279-282 | a first look that cannot tell always fails the release, and the assignment stays with its owner |
| Release.FailedReleaseGivesBack | internal/lifecycle/release_service.go:192-203 | **Main.** a release that fails anywhere leaves the assignment and its marker with the owner, assigned unless the restoring write was refused |
| Release.ReleaseAssignment | internal/lifecycle/release_service.go:183-210 | a refused fence changes nothing; after the fence everything follows the specified drain, and success means the worktree was returned and every process tracked at the fence seen gone |
| ProcessTree.ClosureIsReachability | internal/process/descendants.go:46-66 | a closed set of reachable processes is the set of all reachable ones |
| ProcessTree.Walk | internal/process/release_manager_windows.go:234-248 | **Main.** the breadth-first walk returns exactly the processes some line of descent leads to in which no child is strictly older than its parent, each once; a time that cannot be read stands in nobody's way |
| ProcessTree.KeptLinksReachDescendants | internal/process/descendants.go:75-107 | the links that survive the age check reach exactly the processes such a line of descent leads to, with the creation times written out |
| ProcessTree.DescendantPids | internal/process/release_manager_windows.go:223-250 | the leader and everything below it, once each, the leader last; nothing when the leader is missing |
| ProcessTree.DescendantsCreatedAfterParents | internal/process/descendants.go:75-102 | keeps exactly the processes such a line leads to, in the order given |
| ProcessTree.Exists | internal/process/descendants.go:27-67 | **Main.** the fixpoint answers exactly whether any process is in the group or reachable |
| ProcessTree.EveryParentIsRecorded | internal/process/release_manager_windows.go:261-267 | with distinct PIDs every recorded parent is found |
| ProcessTree.DepthsOf | internal/process/release_manager_windows.go:261-291 | **Main.** the depth map holds exactly the processes whose recorded parents lead to the leader, each at its distance |
| ProcessTree.DepthOf | internal/process/release_manager_windows.go:268-289 | a depth is found exactly when the recorded parents lead to the leader, and it is the only one |
| ProcessTree.DescendantsAreDeeper | internal/process/release_manager_windows.go:261-291 | every chain of links goes down one depth at a time |
| ProcessTree.DeepestFirstSorts | internal/process/release_manager_windows.go:95-101 | the sort is a permutation by decreasing depth |
| ProcessTree.DeepestFirstIsStable | internal/process/release_manager_windows.go:95-101 | and keeps the order within each depth |
| ProcessTree.KillOrder | internal/process/release_manager_windows.go:56-101 | **Main.** with distinct PIDs, exactly the leader and the processes a line of descent leads to, no child in it older than its parent, are signalled, each once and after all its own descendants, the leader last |
| FingerprintStream.DecimalParses | internal/dependencies/fingerprint.go:168 | sizes are read back |
| FingerprintStream.FileReads | internal/dependencies/fingerprint.go:155-171 | one file's bytes decode to its path and its missing marker or content, whatever follows |
| FingerprintStream.StreamDecodes | internal/dependencies/fingerprint.go:145-171 | the decoder recovers the ten header fields and every file |
| FingerprintStream.DifferentInputsDifferentStreams | internal/dependencies/fingerprint.go:145-171 | **Main.** different inputs hash different bytes |
| FingerprintInputs.DependencyInputsAreCovered | internal/dependencies/fingerprint.go:92-107 | manifests, lockfiles and their configuration count in every directory, and so does every file below a patches directory |
| FingerprintInputs.NormalFormLeadsToTheSamePlace | internal/dependencies/fingerprint.go:187-198 | **Main.** a listed path is accepted if and only if it is relative and walking it from the root never climbs out and ends below it; its normal form is the plain path to the same place |
| FingerprintInputs.PairlessStays | internal/dependencies/fingerprint.go:165-167 | content without a carriage return before a line feed is hashed as it is |
| FingerprintInputs.PairBecomesLineFeed | internal/dependencies/fingerprint.go:165-167 | each such pair becomes one line feed, whatever stands around it |
| FingerprintInputs.CheckoutsAgree | internal/dependencies/fingerprint.go:165-167 | a text hashes the same bytes checked out with either line end |
| FingerprintInputs.SameBytesSameIdentity | internal/dependencies/fingerprint.go:133-153 | **Main.** the same bytes mean the same platform, runtime, package manager and mode |
| Fingerprint.DependencyFiles | internal/dependencies/fingerprint.go:70-90 | the selected files, each once, ascending |
| Fingerprint.Dedupe | internal/dependencies/fingerprint.go:125-131 | in-place removal of equal neighbours leaves the same files, strictly ascending |
| Fingerprint.CollectSourceFiles | internal/dependencies/fingerprint.go:116-131 | the normalised files of a listing, or a refusal exactly when one strays |
| Fingerprint.NormalizingKeepsNulFree | internal/dependencies/fingerprint.go:187-198 | normalising introduces no separator of the stream |
| Fingerprint.ListingOrderDoesNotMatter | internal/dependencies/fingerprint.go:70-90 | **Main.** order and repetitions of the listing do not change the files, and so not the stream |
| Fingerprint.WriteFields | internal/dependencies/fingerprint.go:180-185 | appends each field and its separator |
| Fingerprint.WriteFile | internal/dependencies/fingerprint.go:155-171 | appends one file's bytes, or stops exactly at an unreadable file |
| Fingerprint.DependencyStream | internal/dependencies/fingerprint.go:116-178 | the hashed bytes are those of the header and of what was seen of each covered file, or a refusal exactly when a file strays or cannot be read |
| Fingerprint.SameBytesSameInputs | internal/dependencies/fingerprint.go:145-171 | **Main.** two listings hash the same bytes only if they agree on the header and on every covered file |
| TailBuffers.TailMoves | internal/process/tail_buffer.go:22-47 | the tail after a write is the old tail shifted by the overflow, or the end of a long write |
| TailBuffers.TailBuffer.Write | internal/process/tail_buffer.go:22-47 | keeps exactly the last bytes of everything written, and the flag as characterised |
| TailBuffers.TailWriter.Write | internal/dependencies/installer.go:432-443 | keeps exactly the last bytes of everything written |
| TailBuffers.CommandBuffer.Write | internal/update/command_runner.go:141-157 | the same, shifted in place |
| TailBuffers.ShiftDown | internal/update/command_runner.go:150-153 | the overlapping copy moves the kept bytes to the front |
| TailBuffers.OverflowDrops | internal/process/tail_buffer.go:22-47 | more than the limit was written exactly when some write dropped bytes |
| TailBuffers.FlagMissesExactLimitWrites | internal/process/tail_buffer.go:36-38 | **Main.** the flag stays unset over dropped bytes exactly when every dropping write was as long as the limit |
| TailBuffers.FlagMissesSomething | internal/process/tail_buffer.go:36-38 | two writes of exactly the limit |
| TailBuffers.BuffersAgree | internal/dependencies/installer.go:432-443 | **Main.** the three buffers agree with one another and with slicing the stream |

## Left out

- Git, package managers, native process calls, signals and terminals: they appear only as answers that may be anything.
- JSON, timestamp and UUID text: encoding is the identity, identifiers are opaque; keeper identifiers that are not UUIDs are not modelled, nor are documents whose fields are missing or of another JSON type.
- Floating-point lease minutes: whole milliseconds instead, so rounding of minutes is not captured; an interval is an exact third of a lease.
- Cross-host lock recovery, ownerless and symlinked lock directories, Windows sharing violations and their retries, lock timeouts and retry delays.
- Handoff and StateStore as classes: they are step machines over values, because what matters in them is the interleaving; the sequential classes are Service.Repository, AtomicFile.Directory, LockGuard, PortRegistry and Release.
- The loop of garbage collection over its plan, the count of warm slots, and the choice of which reason text to report; warm and acquire choose any eligible path.
- The primary lock of an acquisition is optional in the code and always taken in the model; without it fewer locks are held and the proofs about the others are unaffected.
- Selection of a reserved workspace by heads and dependency checks: an acquisition may try any available workspace.
- An acquisition's own choice of path (AcquireInput.WorkspacePath), which no command makes: every new workspace gets a drawn one.
- `ruk create` and `ruk remove`: the choice of branch and start point, the refusal of the current workspace, directories that are no worktrees, which Git refuses to remove, and the worktree registry they tell.
- A failure to give back a workspace or pool lock: only StateStore models that a lock cannot be released.
- Service.Repository.Reserve: the sort of the candidates is modelled as picking the one that sorts first.
- Service.Repository.UpdateFor: does not cover port publication, which PortRegistry.Allocate does.
- PortRegistry.Allocate: validation of names after normalisation is not modelled; the names are taken to be distinct.
- TailBuffers.TailWriter.Write: a negative limit, on which the program would fail, is excluded.
- ProcessTree.KillOrder: PIDs in the snapshot are taken to be distinct, and opening, checking and terminating each handle is left out.
- Fingerprint.DependencyStream: Windows volume names and path separators, and the hash itself, are left out; line ends are modelled on bytes.
- Heartbeat.BeatsKeepWorkAlive: a beat and the lease re-read after it are one step.
- The worktree registry, projection fingerprints, disk scanning, command line, dashboard, configuration, self-update and release tooling.
