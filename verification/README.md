# Genes repository tooling: verified models

This project models, in Dafny, the parts of the Genes repository whose correctness rests on state and on
decisions rather than on compiler output, and proves what they promise. `dafny verify dfyconfig.toml` checks
everything.

| file | what it models |
|---|---|
| `ArtifactPlan`, `ArtifactProtocol` | publication plans, and the artifact transaction as a step machine: one step per durable file operation, check or host answer; process exits and I/O errors before every step; outside edits at any moment |
| `ArtifactSafety` | the invariant of the transaction and its preservation by every step |
| `ArtifactRecovery` | recovery: a measure that shows it ends, what it decides, exactly when it completes |
| `ArtifactNesting` | live paths inside one another: exactly when a plan's files can be read, and that an unnested plan's always can |
| `ArtifactOutside` | an outside editor: what is never overwritten, what is never accepted, and the exact window |
| `ArtifactTheorems`, `ArtifactLimits` | crash atomicity over whole runs; a transaction that nothing can finish, and an outside edit that is lost |
| `ArtifactFaults` | one fault anywhere in a publication, and what it leaves, exactly; errors in the clean-up; orphaned control state |
| `ArtifactAdmission`, `ArtifactCalls` | who gets the lock, and the one outcome of every call that nobody disturbs, decided by the disk, the caller and the host's answers |
| `ArtifactPublisher` | the publisher and recovery routines as methods that change one project's files in place, proved to be runs of the step machine |
| `PlanCheck` | the two plan checkers, non-interference of the paths they accept, and how the checkers differ |
| `DirtyLoop` | the serialized dirty loop |
| `DevelopmentSession` | the development session on top of it |
| `SessionReports` | what the session reports: a log that tells everything, and how builds and the session end |
| `SessionPublication` | the session joined with the artifact transaction: which generation is public, derived from runs of the step machine |
| `SurfaceAudit`, `SurfaceWalks` | the exported-surface search, its termination, and what it reports |
| `SurfacePolicy` | the boundary policy and the ownership inventory |
| `OutputManifest`, `Encodings` | the output manifest reader, Base64 and UTF-8 |
| `DownstreamContract`, `DownstreamRunner` | downstream profiles, bounded capture, classification and run summary |
| `Snapshots` | snapshot normalisation and the update and check modes |
| `HookInstaller`, `HookTheorems` | the Git hook section installer |
| `Paths`, `Texts`, `Wrappers` | slash-separated paths, text helpers, options |

## What the proofs found

The following stronger readings of the documentation are false of the code. Each has a lemma with the input or
the family of inputs, and the exact condition is proved.

- A process that stops between writing `journal.json.tmp` and renaming it leaves a transaction that nothing can finish,
  unless the journal is already terminal: `persistPhase` treats the leftover as a collision, and whatever happens later -
  publications, recoveries, exits, errors, edits of any file - the three control files stay, and no call publishes,
  finalises or rolls back
  (`ArtifactLimits.TornJournalIsStuck`; the exact condition is `ArtifactRecovery.RecoveryCompletesIff`). No named crash
  point lies in that gap; at the named ones every admitted recovery completes (`ArtifactTheorems.CheckpointExitsRecover`).
- Neither plan checker refuses live paths inside one another, such as `a` and `a/b` (`PlanCheck.NestedPlanAccepted`), but a
  path below a file cannot be read: such a publication fails half-way, and its rollback and recovery fail too. A plan's files can be read before
  and after its publication if and only if no such pair clashes (`ArtifactNesting.NestingExact`), and then they can be
  read in every state of every run (`ArtifactNesting.RunLegible`). The theorems that promise an end ask for that. The
  others need not: a reading that fails is an I/O error of the machine.
- The publisher re-reads live files before and after it moves them, but not at the moment of a move. Bytes that others
  write, any number of times, to any files whose own last move is still to come are lost at any moment after the second
  check: they go to a backup or are overwritten, the publication goes through as if nothing had happened, and in the end
  they are neither live nor in a backup (`ArtifactLimits.WindowEditsAreLost`; every changed file of every authorised plan has such a moment,
  `ArtifactLimits.WindowEditIsLost`). Outside that window they survive (`ArtifactOutside.OutsideBytesSurvive`,
  `ArtifactOutside.DisplacedExactly`). The sentence of `tooling/README.md` that an outside edit cannot be recorded as
  accepted holds (`ArtifactOutside.OutsideEditNeverAccepted`).
- An I/O error in the publisher's clean-up, after the decision has been recorded, starts a rollback whose backups may
  be gone. The call then restores the prior tree if and only if no needed backup is gone yet, and its control state is
  then gone if and only if the lock was still there (`ArtifactFaults.CleanupErrorExact`); otherwise a mixed tree can remain
  (`ArtifactFaults.CleanupErrorMixes`), and once the lock is gone an orphaned journal that no later call resolves
  (`ArtifactFaults.LostLockOrphans`). An error reported by the removal of the journal itself makes the call fail although
  everything is published. For a single fault at any point of a publication, from its lock on, the prior tree
  is restored if and only if the fault is neither torn - it leaves the temporary journal of a phase after the moves - nor
  late, as above (`ArtifactFaults.OneFaultExact`).
- So the last accepted generation of a session is not public after every failed publication. Over every run of a session
  and its files, with any faults in its publications, it is public at the end if and only if every publication succeeded
  or left the files as it found them (`SessionPublication.LastGoodExactly`). A call that leaves no journal does harm in one
  way only, an error reported over the complete next tree (`SessionPublication.TidyIsHarmless`); a call with a single fault
  does harm if and only if the fault is torn or late (`SessionPublication.OneFaultLastGood`).
- The corpus checker compares private roots and live paths as written, so on a file system that ignores case a live
  path may lie inside the stage root (`PlanCheck.CorpusCheckerMissesCase`). The publisher's validator has the missing
  guard; how the two checkers differ, their two ways of lower-casing included, is `PlanCheck.CheckersAgree`.
- `close()` of the dirty loop drops requests that are still pending; all accepted requests are delivered if and only if
  nothing was pending (`DirtyLoop.CloseDeliversIff`). After `close()` the host is called, once, if and only if a run had
  been started whose microtask had not come yet and then comes (`DirtyLoop.RunBeginsAfterClose`).
- An empty output chunk after a full buffer marks a capture incomplete although nothing was lost
  (`DownstreamRunner.EmptyChunkLosesCompleteness`).
- The hook installer's final check counts markers but not their order. A hook whose repository end marker precedes its
  begin marker passes without the repository block (`HookTheorems.ReversedHookPasses`); the block is there if and only if,
  in the hook without its old pinned section, the begin marker was absent or followed by its end marker
  (`HookTheorems.BlockInstalledIff`).
- A session that is closing reports the phase "ready" again when the build in progress is published; besides that, only the
  end of the session follows the report of closing (`SessionReports.ClosingLog`, `SessionReports.PhaseIsTrue`).
- A publication that ends well always advances the generation; it is reported as `generation-accepted`, at any time, if
  and only if the session was not closing at that moment (`DevelopmentSession.AcceptedWhileClosing`).

Crash points in the corpus and clean-up in the code: both `publishArtifacts` and `cleanupTerminal` remove the journal's
temporary file first, then the work directory, then the lock, then the journal. The checkpoint named
`after-cleanup:journal` therefore comes before the journal is removed, and `committed` is durable before backups go.
The model follows the code.

## Model

| member | source | states |
|---|---|---|
| ArtifactSafety.StepKeeps | tooling/src/artifacts/publisher.ts:359-449 | every step of every calm run - publication, recovery, host answer, exit, I/O error - keeps the invariant: live files, backups, journal and lock agree with the recorded phase |
| ArtifactSafety.RunKeeps | tooling/src/artifacts/recovery.ts:257-444 | the invariant holds after any number of publications, exits and recoveries |
| ArtifactTheorems.CrashAtomicity | tooling/README.md:1001-1036 | after any calm run from a fresh project: without a journal no backup remains; with an undecided one every recorded prior state is still live or backed up; with a decided one the tree is all prior or all next; and a finished call left the exact generation its outcome names, with lock, journal and backups gone |
| ArtifactTheorems.MarkerIsTruthful | tooling/README.md:1003-1005 | in every state of every calm run, forward or backward, a marker at its next state means all artifacts are at theirs |
| ArtifactAdmission.LockRemovedExactly | tooling/src/artifacts/publisher.ts:141-240 | at any moment of a publication call, a lock disappears exactly by its holder's release, or by the one reclaim of a lock of the same project and host whose writer the call's own caller finds dead, without a journal |
| ArtifactAdmission.LockStands | tooling/src/artifacts/publisher.ts:180-204 | a lock of another project or host, one beside a journal, and one of a live writer: over every run of the call the whole disk stays as it was |
| ArtifactAdmission.WriterIsAlone | tooling/README.md:1001-1036 | while a publication holds its lock, no other publication or recovery on another host, or by a caller that finds the writer alive, changes anything on disk |
| ArtifactAdmission.SecondCheck | tooling/src/artifacts/publisher.ts:366-373 | under the lock the call goes on exactly when all staged and live files are still as planned; otherwise it releases the lock, changes nothing else, and says why |
| ArtifactAdmission.PublishDecides | tooling/src/artifacts/publisher.ts:332-449 | for every disk, caller, legible plan and host answer, the outcome and the disk of an undisturbed call: refused for what it reads, refused by the lock, stopped by leftovers, rejected, or published; a dead writer's lock does not stop it |
| ArtifactAdmission.PublishAgain | tooling/src/artifacts/publisher.ts:357-360 | publishing what is already public changes nothing |
| ArtifactCalls.PublishAlways | tooling/src/artifacts/publisher.ts:332-449 | every undisturbed run of a publication call, in whatever order its steps come, ends with that outcome and that disk |
| ArtifactCalls.RecoverAlways | tooling/src/artifacts/recovery.ts:257-444 | every undisturbed run of a recovery call ends with one outcome: refused or let in by the conditions on disk and caller, then as the host answers |
| ArtifactTheorems.CheckpointExitsRecover | scripts/test-artifact-transaction-protocol.ts:509-535 | when exits happen only at checkpoints and publications begin with an unnested plan, every admitted recovery completes, finalising exactly if the intended tree is complete and admitted |
| ArtifactTheorems.PublishSucceeds | tooling/src/artifacts/publisher.ts:332-430 | from any fresh project and authorised unnested plan, a calm run reaches the published outcome with every file at its next state and no control state left |
| ArtifactRecovery.FinishIsRun | tooling/src/artifacts/recovery.ts:218-255 | from every state of recovery or rollback, a run no longer than an explicit measure finishes the call |
| ArtifactRecovery.SettleCompletes | tooling/src/artifacts/recovery.ts:183-255 | with lock and temporary file in order and legible paths, rollback or finalisation ends with its verdict from every phase: a rejected or failed publication has left exactly the prior tree, a finalised one exactly the next, with journal, lock and backups gone |
| ArtifactRecovery.BlockedFails | tooling/src/artifacts/recovery.ts:74-90 | a leftover temporary journal stops every undecided recovery and leaves the control files as they are |
| ArtifactRecovery.RecoveryDecides | tooling/src/artifacts/recovery.ts:384-443 | on legible paths recovery finalises exactly when every live file is at its next state and the host admits it, rolls back otherwise; a refused plan changes nothing on disk |
| ArtifactRecovery.RecoveryLetIn | tooling/src/artifacts/recovery.ts:269-383 | a recovery is let in exactly by a journal of its project and root, with a lock of the same transaction, project and host whose writer is dead or the caller itself, or with no lock and a committed journal; otherwise it is over with the disk as it was, and a matching live writer is reported as active |
| ArtifactRecovery.RecoveryCompletesIff | tooling/src/artifacts/recovery.ts:74-105 | on legible paths, the exact condition under which a recovery call completes |
| ArtifactRecovery.RecoveryIsIdempotent | tooling/src/artifacts/recovery.ts:269-273 | after a completed recovery, a second one finds nothing to recover and changes nothing |
| ArtifactNesting.NestingExact | tooling/src/artifacts/filesystem.ts:94-118 | the files of a plan can be read both before and after its publication if and only if no two of its paths clash, the guard that neither checker has |
| ArtifactNesting.RunLegible | tooling/src/artifacts/filesystem.ts:94-118 | in every state of every calm run whose publications begin with an unnested plan, the running call and the next recovery can read all their paths |
| ArtifactOutside.OutsideBytesSurvive | tooling/README.md:1034-1036 | bytes that no plan knows survive every publication, rollback and recovery that does not move their path blindly |
| ArtifactOutside.OutsideEditNeverAccepted | tooling/README.md:1005-1007 | a tree with foreign bytes at a changed path is never recorded as accepted |
| ArtifactOutside.DisplacedExactly | tooling/src/artifacts/publisher.ts:297-330 | one step displaces foreign bytes if and only if it is the unchecked move of that very path |
| ArtifactLimits.WindowEditIsLost | tooling/src/artifacts/publisher.ts:368-405 | for every authorised plan and every file that it changes, there is a publication in which an edit of that file just before its own move is accepted over and lost |
| ArtifactLimits.WindowEditsAreLost | tooling/src/artifacts/publisher.ts:297-330 | from any moment after the second check, any number of edits of any files whose own last move is still to come, between any steps: the call publishes, every file ends at its next state, and no backup keeps the edited bytes |
| ArtifactLimits.TornJournalIsStuck | tooling/src/artifacts/recovery.ts:84-96 | an exit between writing and renaming the journal leaves a state from which, over every continuation, the control files stay and no call ever publishes, finalises or rolls back |
| ArtifactLimits.StuckForever | tooling/src/artifacts/recovery.ts:74-96 | an undecided transaction behind a leftover temporary journal stays so over every run of any events, and no call publishes, finalises or rolls back |
| ArtifactFaults.PublicationFaultExact | tooling/src/artifacts/publisher.ts:431-448 | after any error or refusal that starts the rollback, the call ends, and how its tree and its control state end is given exactly by the leftover temporary journal and the lock |
| ArtifactFaults.OneFaultExact | tooling/src/artifacts/publisher.ts:431-448 | one fault of any kind at any point of a publication from its lock on to the removal of its journal: the call fails, and leaves exactly the prior tree if and only if the fault is neither torn (it leaves the temporary journal of a phase after the moves) nor late (a needed backup is gone, or only the removal of the journal failed) |
| ArtifactFaults.UnwindExact | tooling/src/artifacts/recovery.ts:107-169 | on any disk, the backward pass succeeds if and only if every transition is undoable, and then all are exactly prior |
| ArtifactFaults.CleanupErrorExact | tooling/src/artifacts/publisher.ts:419-447 | an error at any operation of the clean-up, with or without its effect, to the end of the call: prior tree if and only if no needed backup is gone, control state gone if and only if the lock was there |
| ArtifactFaults.LostLockOrphans | tooling/src/artifacts/recovery.ts:316-322 | with lock and a needed backup gone, such an error leaves a rolling-back journal that stays over every later run; no call publishes, finalises or rolls back |
| ArtifactFaults.OrphanForever | tooling/src/artifacts/recovery.ts:316-322 | an undecided journal without its lock stays over every run, and no call publishes, finalises or rolls back |
| ArtifactFaults.CleanupErrorMixes | tooling/src/artifacts/publisher.ts:425-446 | for every authorised plan of a stated shape, one failed lock release leaves a mixed tree |
| ArtifactPublisher.Project.constructor | tooling/src/artifacts/publisher.ts:332-343 | a project without control state, its surroundings and its host |
| ArtifactPublisher.Project.Await | tooling/src/artifacts/publisher.ts:57-62 | before an operation: outside edits, then the operation proceeds, fails, or the process is gone |
| ArtifactPublisher.Project.Consult | tooling/src/artifacts/publisher.ts:408-413 | the host answers, and the machine moves as the answer says |
| ArtifactPublisher.Project.Conclude | tooling/src/artifacts/publisher.ts:431-447 | an operation took effect, or raised an error with or without its effect |
| ArtifactPublisher.Project.AcquireLock | tooling/src/artifacts/publisher.ts:141-214 | creates the lock, reclaims at most one lock of a dead writer, or refuses: the machine stands at the second check or at that refusal |
| ArtifactPublisher.Project.ReleaseLock | tooling/src/artifacts/publisher.ts:219-238 | removes the own lock, accepts a missing one, refuses another |
| ArtifactPublisher.Project.SaveJournal | tooling/src/artifacts/publisher.ts:242-291 | the journal goes to a temporary file and is then renamed |
| ArtifactPublisher.Project.PublishTransition | tooling/src/artifacts/publisher.ts:297-330 | prior file to the backup, staged file into place |
| ArtifactPublisher.Project.PublishUnderLock | tooling/src/artifacts/publisher.ts:366-430 | the protected body: check, journal, artifacts, marker, host, check, decision, clean-up |
| ArtifactPublisher.Project.MoveEverything | tooling/src/artifacts/publisher.ts:390-405 | artifacts in order, then the marker |
| ArtifactPublisher.Project.AdmitIntended | tooling/src/artifacts/publisher.ts:408-416 | host admission, then a second reading of every live file |
| ArtifactPublisher.Project.SweepBackups | tooling/src/artifacts/filesystem.ts:336-350 | backup files go one by one |
| ArtifactPublisher.Project.CleanUp | tooling/src/artifacts/publisher.ts:419-430 | temporary file, work directory, lock, journal |
| ArtifactPublisher.Project.PublishArtifacts | tooling/src/artifacts/publisher.ts:332-449 | a whole publication call is a run of the step machine that ends in the outcome it returns; undisturbed, it returns exactly what the disk, the caller and the host decide and leaves exactly that disk |
| ArtifactPublisher.Project.PersistPhase | tooling/src/artifacts/recovery.ts:74-105 | records a phase of rollback or finalisation |
| ArtifactPublisher.Project.RollBackTransition | tooling/src/artifacts/recovery.ts:107-169 | undoes one transition or reports a conflict |
| ArtifactPublisher.Project.RollBack | tooling/src/artifacts/recovery.ts:218-255 | marker first, then artifacts in reverse; then every file is checked before the rollback is terminal |
| ArtifactPublisher.Project.CleanUpTerminal | tooling/src/artifacts/recovery.ts:183-216 | the terminal clean-up |
| ArtifactPublisher.Project.ResumeOwned | tooling/src/artifacts/recovery.ts:390-443 | recovery behind a trusted lock |
| ArtifactPublisher.Project.DropJournalOnly | tooling/src/artifacts/recovery.ts:329-355 | recovery when only a committed journal is left |
| ArtifactPublisher.Project.RecoverArtifacts | tooling/src/artifacts/recovery.ts:257-444 | a whole recovery call is a run of the step machine that ends in the outcome it returns; undisturbed, it returns exactly what the disk, the caller and the host decide |
| ArtifactPublisher.ProjectIsSafe | tooling/README.md:1001-1036 | in every state the methods reach from a fresh project by a calm run, the invariant and the promise of the outcome hold |
| PlanCheck.AssertUnique | scripts/test-artifact-transaction-protocol.ts:211-224 | true exactly when no two values share an identity |
| PlanCheck.NamesListed | scripts/test-artifact-transaction-protocol.ts:300-311 | folding the one combined list is the same as keeping live, staged and private names pairwise distinct |
| PlanCheck.ValidatePlan | scripts/test-artifact-transaction-protocol.ts:226-326 | accepts exactly the plans of a declarative predicate |
| PlanCheck.Record | tooling/src/artifacts/validate-plan.ts:197-232 | the identity maps accept a transition exactly when the names stay separate |
| PlanCheck.CheckTransitions | tooling/src/artifacts/validate-plan.ts:176-233 | accepts exactly when every transition is admitted and all names are separate, and says which kind of fault it saw |
| PlanCheck.ValidatePublicationPlan | tooling/src/artifacts/validate-plan.ts:142-247 | accepts exactly the plans of a declarative predicate, with truthful refusals |
| PlanCheck.InsideStage | scripts/test-artifact-transaction-protocol.ts:302-306 | from the string test alone: a path under the stage root has the root as a proper segment prefix, and is apart from whatever the root is apart from |
| PlanCheck.CheckedPlanSeparates | scripts/test-artifact-transaction-protocol.ts:312-325 | in an accepted plan no live path equals, contains or lies inside a staged path or a private root, and a path is staged exactly when it changes to a file |
| PlanCheck.ValidPlanSeparates | tooling/src/artifacts/validate-plan.ts:63-73 | the same, for the portable identities of the paths |
| PlanCheck.CheckersAgree | tooling/src/artifacts/validate-plan.ts:188-196 | the exact conditions under which a plan accepted by one checker, with its own lower-casing, is accepted by the other with its own |
| PlanCheck.FoldedSeparationExact | scripts/test-artifact-transaction-protocol.ts:312-325 | for plans of the corpus checker, separation after folding is exactly the guard it lacks |
| PlanCheck.CorpusCheckerMissesCase | scripts/test-artifact-transaction-protocol.ts:312-325 | a concrete accepted plan whose marker lies inside the folded stage root |
| PlanCheck.NestedPlanAccepted | tooling/src/artifacts/validate-plan.ts:176-247 | a concrete plan with one live path inside another that both checkers accept |
| PlanCheck.PlanStaysInside | tooling/src/artifacts/validate-plan.ts:142-247 | every path that an accepted plan names lies strictly inside the project, wherever that is |
| PlanCheck.StatesAreExact | tooling/src/artifacts/validate-plan.ts:89-110 | in an accepted plan every recorded file state, and each of the two identities, has the hexadecimal digest of exactly 32 bytes, and modes hold permission bits only |
| PlanCheck.SegmentsAreStored | tooling/src/artifacts/validate-plan.ts:14-57 | every path segment of a plan that the publisher accepts is stored on Windows under its own name, is no device, and has no forbidden character |
| PlanCheck.OneOrder | tooling/src/artifacts/validate-plan.ts:234-247 | accepted plans with the same artifacts list them in the same order |
| Paths.WithinIsPrefix | scripts/test-artifact-transaction-protocol.ts:246-251 | string containment with a slash is segment-prefix containment |
| Paths.ApartFromInside | scripts/test-artifact-transaction-protocol.ts:312-325 | two prefixes of one path are comparable, so what is inside an area is apart from what the area is apart from |
| DirtyLoop.RequestsDelivered | tooling/README.md:1217-1236 | at rest before close, over every run: each accepted request is in exactly one started group, in order; the host got each group merged; with an associative merge, the merged deliveries equal the merged requests |
| DirtyLoop.StartTakesAll | tooling/src/loop/serialized-dirty-loop.ts:94-117 | a run starts only when none is active, takes every request accepted so far, and not before the debounce time has passed since the last one |
| DirtyLoop.RequestDebounces | tooling/src/loop/serialized-dirty-loop.ts:94-133 | after a request, whatever else happens, the timer can start the next run exactly from the moment at which the debounce time has passed since it and no run is active |
| DirtyLoop.FireStartsIff | tooling/src/loop/serialized-dirty-loop.ts:94-117 | the timer starts a run exactly when something is pending, nothing is active, and the debounce time has passed since the last request |
| DirtyLoop.EndsAreReported | tooling/src/loop/serialized-dirty-loop.ts:117-133 | over every run, each host call that settles is recorded once, in order, failed or not as it was |
| DirtyLoop.RunKeeps | tooling/src/loop/serialized-dirty-loop.ts:48-135 | over every run: host calls alternate with their ends, control fields agree, nothing accepted is lost before close |
| DirtyLoop.BurstHasOneFollowUp | tooling/README.md:1219-1221 | any requests, waiters, timer callbacks and passing time during an active run, and any continuation without new requests: nothing starts during the run, afterwards at most one run, with exactly that burst; at rest, one if and only if there was a burst |
| DirtyLoop.FollowUpComes | tooling/README.md:1219-1221 | and that one run comes when host calls settle and time passes |
| DirtyLoop.CloseDeliversIff | tooling/src/loop/serialized-dirty-loop.ts:70-83 | after close the delivered groups are those started before it; everything is delivered if and only if nothing was pending |
| DirtyLoop.CloseDropsPending | tooling/src/loop/serialized-dirty-loop.ts:76-76 | one request followed by close is never delivered |
| DirtyLoop.RunBeginsAfterClose | tooling/src/loop/serialized-dirty-loop.ts:117-119 | over every continuation of close, the host is called after it if and only if a started run had not called it yet and its microtask comes; then once |
| DirtyLoop.Drains | tooling/src/loop/serialized-dirty-loop.ts:119-142 | with host calls that settle, the loop comes to rest and every waiter is resolved once, in order |
| DirtyLoop.WaiterIsHeld | tooling/src/loop/serialized-dirty-loop.ts:63-91 | a waiter is resolved at once exactly when the loop is closed or at rest; otherwise it waits, whatever happens, until the loop comes to rest, and then nobody waits |
| DirtyLoop.ResolvedAtRest | tooling/src/loop/serialized-dirty-loop.ts:137-143 | waiters are resolved only by a step that brings the loop to rest, or on arrival after close |
| DirtyLoop.WaitersOnce | tooling/src/loop/serialized-dirty-loop.ts:137-143 | over every run each waiter that has come is waiting or has been resolved, exactly once, before close in the order of arrival |
| DirtyLoop.SerializedDirtyLoop.constructor | tooling/src/loop/serialized-dirty-loop.ts:35-42 | an idle loop |
| DirtyLoop.SerializedDirtyLoop.RequestRun | tooling/src/loop/serialized-dirty-loop.ts:48-61 | the whole new state after a request |
| DirtyLoop.SerializedDirtyLoop.AwaitIdle | tooling/src/loop/serialized-dirty-loop.ts:63-68 | resolves at once when closed or idle, and otherwise waits |
| DirtyLoop.SerializedDirtyLoop.CloseLoop | tooling/src/loop/serialized-dirty-loop.ts:70-83 | the whole new state after close; nothing started is lost, and what was pending is dropped |
| DirtyLoop.SerializedDirtyLoop.OnTimer | tooling/src/loop/serialized-dirty-loop.ts:99-102 | the timer starts at most one run, and that run takes all requests |
| DirtyLoop.SerializedDirtyLoop.CallHost | tooling/src/loop/serialized-dirty-loop.ts:117-118 | the microtask calls the host with the cause |
| DirtyLoop.SerializedDirtyLoop.Settled | tooling/src/loop/serialized-dirty-loop.ts:119-133 | after a run: closed, idle, or a follow-up no earlier than the debounce time |
| DevelopmentSession.MergeIsAssociative | tooling/src/session/runtime.ts:286-294 | the session merge rule meets the demand of the dirty loop |
| DevelopmentSession.SequenceAndHistory | tooling/README.md:136-141 | over every run events are numbered one by one, and accepted generations rise in number and in revision |
| DevelopmentSession.GenerationsAreEarned | tooling/src/session/runtime.ts:1399-1530 | over every run, each accepted generation has its story: its very tree approved, later begun to be published while nothing newer overtook it and the public tree was the recorded one, later published, once and in order |
| DevelopmentSession.ForeignTreeBlocksPublication | tooling/src/session/runtime.ts:1450-1478 | on a public tree or marker changed from outside, over every run: no publication begins, the foreign tree stays and the ledger too, until somebody edits it again |
| DevelopmentSession.InformationalKeepsBuild | tooling/README.md:146-150 | a build in progress ends the same way whether or not an informational change was observed |
| DevelopmentSession.SupersededNeverPublishes | tooling/src/session/runtime.ts:1145-1188 | a rebuild change observed before publication begins: over every run until the next build starts, that build is never published and never accepted |
| DevelopmentSession.AcceptedWhileClosing | tooling/src/session/runtime.ts:1507-1530 | over every run before and after, a generation whose publication ended well is reported if and only if the session was not closing then |
| DevelopmentSession.Runtime.constructor | tooling/src/session/runtime.ts:457-474 | the session after startup |
| DevelopmentSession.Runtime.ObserveChange | tooling/src/session/runtime.ts:1145-1188 | the whole new state after an observed change |
| DevelopmentSession.Runtime.StartBuilding | tooling/src/session/runtime.ts:1226-1245 | a build starts with the merged cause |
| DevelopmentSession.Runtime.CandidateReady | tooling/src/session/runtime.ts:1377-1386 | the candidate is generated, and goes to the validator |
| DevelopmentSession.Runtime.ValidatorReturned | tooling/src/session/runtime.ts:1399-1436 | rejected, superseded or admitted |
| DevelopmentSession.Runtime.CheckBeforePublish | tooling/src/session/runtime.ts:1438-1478 | the checks inside the write gate |
| DevelopmentSession.Runtime.PublisherReturned | tooling/src/session/runtime.ts:1501-1552 | acceptance, or the failure of a publication |
| DevelopmentSession.Runtime.Catch | tooling/src/session/runtime.ts:1537-1562 | a thrown error: silent, superseded or failed |
| DevelopmentSession.Runtime.StepThrew | tooling/src/session/runtime.ts:1537-1562 | a throw before publication, with the phase of the step that threw |
| DevelopmentSession.Runtime.InvocationChanged | tooling/src/session/runtime.ts:1263-1275 | a changed invocation: a new revision, and the candidate is overtaken |
| DevelopmentSession.Runtime.PreparationFailed | tooling/src/session/runtime.ts:1297-1309 | a rejected preparation |
| DevelopmentSession.Runtime.PathEscaped | tooling/src/session/runtime.ts:1145-1166 | a watched path outside the declared roots |
| DevelopmentSession.Runtime.BeginClose | tooling/src/session/runtime.ts:813-838 | the session starts to close |
| DevelopmentSession.Runtime.EndClose | tooling/src/session/runtime.ts:865-866 | the session is closed once the build is over |
| SessionReports.LogTellsAll | tooling/README.md:136-150 | over every run the log reads without contradiction - inputs numbered, one build at a time, one candidate, one end, every failure and acceptance the phase just reported, nothing after the end - and tells the truth about phase, revision and build |
| SessionReports.BuildEndsAs | tooling/src/session/runtime.ts:1537-1562 | in every reachable state that is not closing: a throw or a rejection reports exactly that failure with phase, revision and retained generation and leaves blocked or degraded, unless a newer rebuild change was observed, which makes a throw an overtaken candidate |
| SessionReports.OvertakenIff | tooling/src/session/runtime.ts:1145-1188 | a build is overtaken exactly when a change that needs a rebuild, of a revision above its own, has been observed since startup |
| SessionReports.SupersededWasOvertaken | tooling/src/session/runtime.ts:1428-1449 | over every run a candidate is reported as superseded only if such a change was observed before or by that step |
| SessionReports.PhaseIsTrue | tooling/src/session/runtime.ts:1873-1898 | over every run the phase is true to the accepted generation: blocked means none; ready, degraded and every retained one name the very one |
| SessionReports.ClosingLog | tooling/src/session/runtime.ts:813-866 | after close, over every continuation, at most the phase ready for a build that is published, then the end of the session, and nothing after it |
| SessionReports.BuildTakesAll | tooling/src/session/runtime.ts:1226-1245 | every build starts with all causes observed since the last start, merged - the newest revision, all paths, every demand - exactly when they ask for a rebuild |
| SessionReports.RevisionCounts | tooling/src/session/runtime.ts:1167-1170 | the newest revision counts the changes observed before close |
| SessionPublication.CallFrame | tooling/src/session/runtime.ts:1479-1506 | a publication call without outside edits, whatever faults it meets, touches the files of its plan only; if it ends well they are at their next states; it leaves no backup without a journal |
| SessionPublication.CallIsAllOrNothing | tooling/README.md:1001-1007 | whatever faults it met, a call that leaves no journal left every file as it was or every file of the plan at its next state |
| SessionPublication.PictureStaysTrue | tooling/src/session/runtime.ts:1501-1530 | after the call the session knows the true state of its public files, however the call ended |
| SessionPublication.LastGoodIff | tooling/README.md:317-326 | after a call the last accepted generation is public if and only if the call succeeded or left every file as it found it |
| SessionPublication.TidyIsHarmless | tooling/src/session/runtime.ts:1537-1562 | a call that leaves no journal, whatever faults it met, succeeded or left every file as it was unless it reported an error over the complete next tree |
| SessionPublication.TidyLastGood | tooling/src/session/runtime.ts:1537-1562 | after a call that leaves no journal, the last accepted generation is public if and only if the call did not report an error over the complete next tree |
| SessionPublication.OneFaultLastGood | tooling/src/session/runtime.ts:1537-1562 | after a call with one fault of any kind at any moment, it is public if and only if the fault is neither torn nor late |
| SessionPublication.LastGoodStaysPublic | tooling/README.md:317-326 | over every run in which publications leave no journal and report no error over the next tree, the public files show the last accepted generation, and change only when one is accepted |
| SessionPublication.LastGoodExactly | tooling/README.md:317-326 | over every run of session and files, with any builds, failures, closing and any faults in publications: at the end the last accepted generation is public if and only if every publication succeeded or left the files as it found them |
| SurfaceAudit.EnterShrinks | scripts/exported-surface-policy.ts:480-503 | unfolding a type makes (owners not active, room for ownerless types) smaller, even in an infinite graph |
| SurfaceAudit.Audit.VisitType | scripts/exported-surface-policy.ts:480-615 | terminates, restores both active sets, adds exactly the keys of the search, and keeps findings and keys one to one |
| SurfaceAudit.Audit.Unfold | scripts/exported-surface-policy.ts:504-614 | marks, visits and unmarks one type |
| SurfaceAudit.Audit.VisitStructure | scripts/exported-surface-policy.ts:507-610 | everything between entering and leaving a type |
| SurfaceAudit.Audit.VisitEdges | scripts/exported-surface-policy.ts:507-577 | follows every edge that is not an exempt default |
| SurfaceAudit.Audit.VisitIndexes | scripts/exported-surface-policy.ts:582-589 | local index signatures and their value types |
| SurfaceAudit.Audit.VisitImmediateWeakArguments | scripts/exported-surface-policy.ts:617-632 | weak arguments where an owner repeats |
| SurfaceAudit.Audit.AddFinding | scripts/exported-surface-policy.ts:881-903 | one finding per key, first one kept |
| SurfaceAudit.Audit.AuditExports | scripts/exported-surface-policy.ts:127-163 | over all exports the keys are the union of the single visits |
| SurfaceAudit.AgreeMeans | scripts/exported-surface-policy.ts:900-902 | findings and their keys are in one-to-one correspondence |
| SurfaceAudit.TextIsInjective | scripts/exported-surface-policy.ts:899-899 | the joined key text identifies a finding whose names hold no NUL |
| SurfaceWalks.SearchIsExact | scripts/exported-surface-policy.ts:480-632 | a key is reported if and only if a walk that repeats no type and no owner ends in a weak type, in a local index signature, or in a weak argument of a repeated owner |
| SurfaceWalks.SearchHasTrace | scripts/exported-surface-policy.ts:480-615 | every reported key has such a walk |
| SurfaceWalks.TraceIsFound | scripts/exported-surface-policy.ts:480-615 | every such walk is reported |
| SurfaceWalks.OrderDoesNotMatter | scripts/exported-surface-policy.ts:507-610 | the reported keys do not depend on the order of children |
| SurfaceWalks.NoWeakTypeEscapes | scripts/exported-surface-policy.ts:491-526 | with distinct owners, any walk to a weak type leaves a finding for a reachable weak type |
| SurfaceWalks.SimpleWalk | scripts/exported-surface-policy.ts:491-502 | cycles can be cut out of a walk to a weak type until it is admissible |
| SurfaceWalks.SharedOwnerHidesWeak | scripts/exported-surface-policy.ts:493-502 | with a shared owner a reachable weak type can go unreported |
| SurfacePolicy.AssertPolicy | scripts/exported-surface-policy.ts:178-215 | the report is one violation per finding without exactly one owner, then one per boundary that no finding uses |
| SurfacePolicy.PolicyIsExact | scripts/exported-surface-policy.ts:178-208 | the report is empty if and only if matching is a total single-valued relation from findings onto active boundaries |
| SurfacePolicy.ReportMeans | scripts/exported-surface-policy.ts:178-208 | a finding is reported as unapproved exactly when no active boundary matches it, as ambiguous exactly with the ids of all that do, in order; a boundary as stale exactly when it is nobody's only owner |
| SurfacePolicy.MatchesExactly | scripts/exported-surface-policy.ts:925-935 | a boundary exempts nothing beyond its own export, its listed kinds and the surface below its prefix |
| SurfacePolicy.CheckClassifications | scripts/exported-surface-policy.ts:302-327 | accepts exactly well-formed, owned, unrepeated classifications |
| SurfacePolicy.EnrollFiles | scripts/exported-surface-policy.ts:329-343 | adds an inventory, or refuses a file outside the program or already enrolled |
| SurfacePolicy.SelectModules | scripts/exported-surface-policy.ts:284-349 | accepts exactly valid inventories with a non-empty selection without repeats inside the program |
| SurfacePolicy.SelectionIsExact | scripts/exported-surface-policy.ts:284-349 | an accepted selection is the disjoint union of the owned type modules without exactly the classified ones |
| OutputManifest.ReadEntries | scripts/exported-surface-policy.ts:382-407 | accepts exactly portable, strictly ascending paths without lower-case collisions whose type modules exist, and returns those modules in order |
| OutputManifest.AcceptEntry | scripts/exported-surface-policy.ts:383-404 | the checks on one line |
| OutputManifest.FindOwned | scripts/exported-surface-policy.ts:352-368 | the manifests that name the owner, or an unreadable owner |
| OutputManifest.ReadOwnedTypeFiles | scripts/exported-surface-policy.ts:351-408 | a result exactly when one manifest names the owner, all owners are readable and the entries are valid |
| OutputManifest.CanonicalReadsBack | scripts/exported-surface-policy.ts:356-380 | canonical text reads back as its owner and its files, with LF or CRLF, with or without a final line end |
| OutputManifest.ReaderInvertsText | scripts/exported-surface-policy.ts:351-408 | the reader accepts the canonical text of valid files and returns exactly them |
| OutputManifest.ForeignIgnored | scripts/exported-surface-policy.ts:353-361 | a file of another name or without the header changes nothing |
| OutputManifest.TypeModulesExactly | scripts/exported-surface-policy.ts:423-425 | the type modules are the files that end with .ts or .tsx |
| OutputManifest.PortableResolvesInside | scripts/exported-surface-policy.ts:427-438 | a portable path resolves strictly inside the root |
| OutputManifest.WithinIffPrefix | scripts/exported-surface-policy.ts:433-438 | the containment test is segment-prefix containment |
| Encodings.OwnerIsCanonical | scripts/exported-surface-policy.ts:410-421 | the owner decoder accepts exactly the canonical Base64 of non-empty UTF-8, however lenient the runtime decoders are |
| Encodings.Base64RoundTrip | scripts/exported-surface-policy.ts:413-418 | decoding undoes Base64 (section 4 of RFC 4648) |
| Encodings.Utf8RoundTrip | scripts/exported-surface-policy.ts:413-418 | decoding undoes UTF-8 (section 3 of RFC 3629) |
| Encodings.DigitIsStandard | scripts/exported-surface-policy.ts:413-418 | the sixty-four digits are the standard ones (section 4 of RFC 4648) |
| Encodings.GroupIsStandard | scripts/exported-surface-policy.ts:413-418 | three bytes are the four digits of their 24 bits |
| Encodings.Utf8Form | scripts/exported-surface-policy.ts:413-418 | the number of bytes of a character, its lead byte and its continuation bytes (section 3 of RFC 3629) |
| DownstreamContract.UniqueIds | scripts/downstream-contracts.ts:244-250 | true exactly when no id repeats |
| DownstreamContract.BindObservations | scripts/downstream-contracts.ts:298-326 | accepts exactly when every expected failure is pinned to its own downstream observation and every observation is pinned |
| DownstreamContract.ParseProfile | scripts/downstream-contracts.ts:252-336 | accepts exactly the profiles of a declarative predicate |
| DownstreamContract.PinsAreOneToOne | scripts/downstream-contracts.ts:298-326 | expected-failure commands and known observations correspond one to one |
| DownstreamContract.HeadlineShape | scripts/downstream-runner-policy.ts:29-34 | a line counts as a diagnostic exactly when it is some text, a position in parentheses, error TS, a number and some text |
| DownstreamContract.PassingMeansUnpinned | scripts/downstream-contracts.ts:294-296 | a passing baseline means no expected failure, and the other way round |
| DownstreamRunner.Capture.Consume | scripts/test-downstream-contracts.ts:193-204 | retained bytes are the first bytes of the stream up to the limit, and completeness is exact |
| DownstreamRunner.CompleteIffFits | scripts/test-downstream-contracts.ts:193-204 | for non-empty chunks, complete if and only if the whole output fits |
| DownstreamRunner.EmptyChunkLosesCompleteness | scripts/test-downstream-contracts.ts:195-198 | an empty chunk after a full buffer loses completeness |
| DownstreamRunner.RunCommand | scripts/test-downstream-contracts.ts:179-217 | the decoded prefix of the output and whether it is all of it |
| DownstreamRunner.RunProfile | scripts/test-downstream-contracts.ts:219-268 | one result per command in order, each the verdict on its output or skipped, and the profile status |
| DownstreamRunner.SkippedAfterFailure | scripts/test-downstream-contracts.ts:228-231 | skipped exactly after the first failed command; at most one fails |
| DownstreamRunner.ReachedOutcome | scripts/downstream-runner-policy.ts:54-75 | the status of every command that is reached, both ways, from its exit code and the headlines of its whole output |
| DownstreamRunner.ExpectedFailureIsExact | scripts/downstream-runner-policy.ts:65-75 | an expected failure vouches for the headlines of the entire output, in order, and for the exit code |
| DownstreamRunner.PinnedFailureIsAccepted | scripts/downstream-runner-policy.ts:65-75 | and the pinned failure is always recognised |
| DownstreamRunner.PassingBaselineOutcome | scripts/downstream-contracts.ts:294-296 | an accepted passing profile can only end passed or failed, and passes exactly when every command exits with zero |
| DownstreamRunner.RunProfiles | scripts/test-downstream-contracts.ts:314-322 | the results of all profiles and the summary of their statuses |
| DownstreamRunner.RunFailsIff | scripts/downstream-runner-policy.ts:89-105 | the run fails if and only if some command failed or unexpectedly passed, and each observation is reported exactly when its outcome is the most severe one |
| DownstreamRunner.SummaryIgnoresOrder | scripts/downstream-runner-policy.ts:89-105 | the summary does not depend on profile order |
| Snapshots.NormalizeIsCanonical | scripts/snapshots.ts:20-27 | no carriage return, no blank before a line end, exactly one final newline |
| Snapshots.FixedIffCanonical | scripts/snapshots.ts:20-27 | normalisation leaves a text alone exactly when it is canonical |
| Snapshots.NormalizeIsIdempotent | scripts/snapshots.ts:20-27 | normalising twice is normalising once |
| Snapshots.NormalizeKeepsLines | scripts/snapshots.ts:20-27 | a snapshot keeps every line, whichever of CRLF, CR and LF ends it, without the blanks at its end, and drops only empty lines at the end of the text |
| Snapshots.NormalizeAlikeIff | scripts/snapshots.ts:20-27 | two texts give the same snapshot exactly when they keep the same lines |
| Snapshots.SelectedExactly | scripts/snapshots.ts:85-87 | the selected files are those whose names end with one of the extensions |
| Snapshots.CheckForetellsUpdate | scripts/snapshots.ts:99-127 | what a check reports as missing, extra and mismatched is what an update would add, delete and rewrite in a well-kept directory |
| Snapshots.SnapshotDirectory.Update | scripts/snapshots.ts:89-96 | the directory then holds exactly one normalised file per selected generated file |
| Snapshots.SnapshotDirectory.Check | scripts/snapshots.ts:99-127 | missing, extra and mismatched files, exactly |
| Snapshots.UpdateThenCheckPasses | scripts/snapshots.ts:89-127 | a check after an update of the same tree finds nothing, whatever the directory held |
| Snapshots.CheckIsExact | scripts/snapshots.ts:99-140 | a check passes exactly when both trees would be stored alike; on a directory of selected canonical files exactly when an update would change nothing |
| Snapshots.UpdateKeepsWell | scripts/snapshots.ts:89-96 | an update leaves a directory of selected canonical files |
| HookInstaller.CountAcross | scripts/install-git-hooks.ts:38-40 | counting a one-line marker across a line break adds up |
| HookInstaller.HookFile.InstallPinnedSection | scripts/install-git-hooks.ts:106-131 | refuses unbalanced or repeated markers; otherwise the whole new hook text |
| HookInstaller.HookFile.InstallRepositorySection | scripts/install-git-hooks.ts:79-104 | refuses unbalanced or repeated markers; otherwise the whole new hook text |
| HookInstaller.HookFile.Run | scripts/install-git-hooks.ts:203-220 | both sections and the final count |
| HookTheorems.InstallIsFixedPoint | scripts/install-git-hooks.ts:145-156 | a run that succeeds leaves a hook on which every further run succeeds and changes nothing |
| HookTheorems.PinnedAgain | scripts/install-git-hooks.ts:116-127 | a hook with one pinned section on top is left as it is |
| HookTheorems.RepositoryAgain | scripts/install-git-hooks.ts:89-99 | installing the repository section twice is installing it once |
| HookTheorems.FreshHookInstalls | scripts/install-git-hooks.ts:203-220 | a Beads hook without Genes markers gets both sections, one of each marker, and keeps its text up to white space at its ends |
| HookTheorems.HookUpgrades | scripts/install-git-hooks.ts:79-131 | for every layout - sections in either order, one missing or both, any text above, between and below - sections are renewed and moved as stated, and all other text stays, in order, with the exact white space it loses |
| HookTheorems.MarkedHookUpgrades | scripts/install-git-hooks.ts:203-220 | every hook with whole, disjoint sections on lines of their own has such a layout, so the upgrade is what that theorem says |
| HookTheorems.ReversedHookPasses | scripts/install-git-hooks.ts:211-220 | for every pair of sections, a hook with the repository markers in the wrong order passes the final count without the block, with or without the override |
| HookTheorems.BlockInstalledIff | scripts/install-git-hooks.ts:211-220 | after a run that passes its final count, the repository block is there if and only if, in the hook without its old pinned section, its begin marker was absent or followed by its end marker |
| HookTheorems.BlockInstalledAround | scripts/install-git-hooks.ts:211-220 | when the old pinned section stands on lines of its own and holds no repository marker, that is a condition on the whole hook before the run |

## Left out

- Reading several files is one step; the step machine has no outside edit between two reads of one check.
- Steps of several writers in turn: another writer that starts while one runs is `ArtifactAdmission.WriterIsAlone`; and the race of two processes that reclaim the same dead lock.
- Torn writes of a single file, directory synchronisation, permissions, symbolic links, directories and special files.
- Control files changed by outsiders, and the text format of journals and locks: a journal or lock is its value.
- Directories: one that stays behind empty where a file has to go makes the real publication fail, as an I/O error of the model.
- ArtifactTheorems.PublishSucceeds: promises nothing for live paths inside one another, because the promise is false there; `ArtifactNesting` has the exact condition.
- ArtifactRecovery.SettleCompletes: likewise.
- ArtifactRecovery.RecoveryDecides: likewise.
- ArtifactRecovery.RecoveryCompletesIff: likewise.
- ArtifactPublisher.Project.PublishArtifacts: refuses a plan by the part of acceptance that the protocol relies on; `PlanCheck` proves that both plan checkers imply it.
- Which of its error kinds the operating system reports for a failed operation: one kind stands for all.
- ArtifactTheorems.CrashAtomicity: says nothing about runs with outside edits, or with an I/O error in the publisher's clean-up after a needed backup is gone, because the promise is false there; `ArtifactOutside`, `ArtifactLimits` and `ArtifactFaults` cover those runs.
- ArtifactTheorems.CheckpointExitsRecover: excludes live paths inside one another, and exits between writing and renaming the journal, because the promise is false there.
- HookTheorems.InstallIsFixedPoint: without the override it asks for the Beads marker, which Beads has just installed when this code runs.
- The shell text of the two hook sections: sections are values with the properties stated in `HookInstaller.SectionsOk`. The source inserts the repository section with `String.replace`, which would interpret patterns such as `$&`; the model inserts it as it is, so it speaks of sections without such patterns, as the shipped one.
- Field-by-field JSON shape checks of plans, boundary manifests and downstream profiles: inputs are typed values.
- Unicode normalisation and locale lower-casing: functions passed in; `Segmental` states the one property used. A character of the model is a Unicode scalar value, the source's strings are sequences of UTF-16 code units; string order agrees except between characters outside the basic plane and those from U+E000 to U+FFFF.
- HookTheorems.MarkedHookUpgrades: asks that the sections stand on lines of their own, as the installer writes them.
- TypeScript's program and checker: the search runs over a graph of functions. Edges to a type's own constraint, which the source skips, are simply not in the graph.
- Sorting and printing of findings, selections and mismatches.
- The session's startup, watch registration, compiler process, read gate and temporary directories; synchronous calls back into the session from its event listeners.
- SessionReports.ClosingLog: leaves out the failure that closing the compiler process may report before the end of the session.
- The session's use of the dirty loop: the session model starts a build with the merged pending cause at any time none is active, without the loop's timers.
- SessionPublication.LastGoodExactly: excludes outside edits of public files, which `DevelopmentSession.ForeignTreeBlocksPublication` covers, and a process exit inside a publication, which ends the session.
- Wall-clock steps backwards in the dirty loop: its clock only moves forward.
- Verification of a downstream checkout, its environment, and the Node version guard.
- Nested snapshot and generated directories: the two are separate maps.
- Haxe server, CSS Modules, Lix, HXML, release and compiler-output code: process control, option tables and output text.
