# SwitchFleet: a verified model of its change-safety cores

SwitchFleet changes the configuration of network switches under a set of safety rules: locks, approvals, canary
batches, dry-runs, backups and certifications. This project models the parts of it that carry a protocol or a state
machine and proves what holds over every run of them.

Services and repositories whose methods update rows are classes; each of their methods is proved equal to a
specification function on values, and the theorems are lemmas about those functions over every run. A run is a sequence
of states in which each state is the result of applying one step to the one before it. Whatever the program reads from
outside (what a device answers, what a source looks like when a call is made, the clock, exceptions) is an input of the
step and may be anything.

| file | what it models |
|---|---|
| `FileLockProtocol.dfy`, `LockRefinement.dfy`, `LabLocks.dfy` | the guard file and `locks.json` as small steps of many processes, and how uninterrupted steps make up one call |
| `LabStore.dfy`, `FileLabState.dfy` | the record store of the file-mode lab, and the executor's critical section |
| `VendorContracts.dfy`, `ExcelLabSafety.dfy` | the contract table, the evaluator's ten gates and the executor's second, separate implementation of them |
| `EvidenceChain.dfy`, `InterleavedEvidence.dfy` | the commands backup, dry-run, evaluate, certify, execute over one store, one by one and interleaved |
| `CanaryPlan.dfy`, `PasswordRollout.dfy`, `RolloutEffects.dfy` | plan arithmetic, slicing, the life of a password rollout, and what each call does to it |
| `DeviceLocks.dfy`, `TaskExecutor.dfy`, `TaskOutcomes.dfy` | the lock table with a time to live, one task under such a lock, and how far it gets |
| `RolloutExecution.dfy`, `ConcurrentTasks.dfy` | a rollout whose tasks are run by the task executor; many task executions on one lock table |
| `ChangeExecution.dfy`, `ExecutionPlan.dfy` | the orchestrator of many executions, its step graph and the simulation |
| `SnapshotHistory.dfy`, `DriftDetection.dfy`, `BackupJob.dfy` | snapshot history with cached diffs, drift detection and retention; the job that fills it |
| `NextRun.dfy`, `InventoryImport.dfy`, `ImportEffects.dfy` | schedules, inventory import |

`dafny verify dfyconfig.toml` checks everything.

## What turned out to be different from the obvious claim

Each of these is proved: lemmas show failing cases, and a lemma says exactly when the claim holds.

- `locks.json` need not agree with the guard files. With several devices a lost update can hide a held lock
  (`LostUpdateReachable`) or bring back a released one (`StaleRecordReachable`); with one device a replace that raises
  after it took effect does the same (`RaiseAfterReplaceLocksOut`); and a stale record locks its device out for good
  (`StaleRecordLocksOutForever`). The file is right exactly if every replace writes the present content with the
  writer's own change and none raises afterwards (`FileIsRightExactly`, `OneDeviceExactly`). Mutual exclusion does not
  depend on the file.
- A rollout is `succeeded` exactly if its *last* batch succeeded. Without stop-on-first-failure that can hide an earlier
  failed batch (`SucceededDespiteFailure`, `SucceededMeans`). The secret is deleted exactly when a job succeeds, so a
  failed or cancelled job keeps it (`SecretLifetime`).
- `reserve_locks` returns the existing rows even when they were released, so an execution whose locks were released
  once never locks anything again (`ReleasedForever`, `ReserveExactly`).
- An explicit `release_locks` leaves a ready execution ready, so that a second one can become ready and simulate for
  the same device (`ExplicitReleaseLetsAnotherIn`, `DoubleReadyIsReachable`); two executions that were not released so
  since they became ready cannot be ready for one device (`ReadyExecutionsExclude`), and a ready execution is safe from
  being joined on a device exactly while it holds it (`AloneExactly`).
- A manual source plans a step that depends on a step nobody plans (`PlanGroundedExactly`). A final step closes the plan
  of a composite source, and of one that is not manual, has an id and has a device; a source without an id gets no final
  step, and with no device it depends on nothing (`FinalizeClosesExactly`).
- The lock table excludes exactly as long as nobody tries to enter a device whose holder has outlived its time to live
  (`ExclusionExactly`); a late holder's release deletes its successor's lock (`LateReleaseEvictsSuccessor`).
- A task that is refused the lock releases nothing exactly if the service notes no lock of that device from a release
  that raised; else it deletes the lock that refused it (`RefusedReleasesNothingExactly`).
- The stored diffs of a device are complete exactly if each backup comes first in its list or between snapshots of its
  own hash (`DiffsAreCompleteExactly`, `CompletenessNeedsTheClock`).
- A negative snapshot limit slices from the end, and then every further pass removes more (`RetentionIsStableExactly`).
- With a starred minute the next run is usually not the least matching time (`LeastExactly`).
- A dry run of an import judges a row wrongly when an earlier row of the batch claims its hostname or renames the holder
  of it, and only then (`DryRunForeseesExactly`, `DryRunMissesInBatchDuplicates`, `DryRunMissesFreedHostname`).

## Assumptions

- One service call is one atomic step, except for the file lock, whose file operations are separate steps. The
  exclusive create is atomic (`open()` with O_CREAT and O_EXCL, POSIX.1-2017, System Interfaces), and so is the replace
  of `locks.json`.
- Hashes, the runtime decision, command templates, forbidden patterns, diffs and diff summaries are deterministic
  functions that are not looked into. Lemmas that need it assume that no forbidden pattern matches a read-only command
  of its own contract (`ReadOnlyUnblocked`).
- Rows created later have later creation times, so "the newest approval" is the last one created.
- Identifiers of new rows are unused.

## Model

| member | source | states |
|---|---|---|
| `FileLockProtocol.GuardOwnedAlways` | app/services/file_lab_state.py:214-257 | in every reachable state a process past its exclusive create owns the guard file of its device |
| `FileLockProtocol.MutualExclusion` | app/services/excel_lab_runtime.py:298-377 | for every interleaving at most one process per device is between a successful reservation and the unlink |
| `FileLockProtocol.OnlyCreatorUnlinks` | app/services/file_lab_state.py:225-257 | a guard file only ever disappears by an unlink of the process that created it |
| `FileLockProtocol.FileIsRightExactly` | app/services/file_lab_state.py:208-257 | over a run the file agrees with the guards in every state and loses or revives no record, exactly if every replace writes the present content with the writer's own change and none raises after it took effect |
| `FileLockProtocol.AgreesAlways` | app/services/file_lab_state.py:208-257 | up to the first write that is not current: a reserved record needs its guard, is the only one, and is there exactly while a process is in its section before its release is written |
| `FileLockProtocol.NotCurrentShows` | app/services/file_lab_state.py:237-245 | a write of an old content, or a raise after the replace, shows at once as a disagreement, a lost or a revived record |
| `FileLockProtocol.RecordsNeverLost` | app/services/file_lab_state.py:369-378 | while all writes are current, every record of an earlier state is in place in every later one, at most turned to released |
| `FileLockProtocol.WinnerPassesSecondCheck` | app/services/file_lab_state.py:225-236 | up to the first write that is not current, a process that created the guard never finds an active record |
| `FileLockProtocol.UndisturbedIsCurrent` | app/services/file_lab_state.py:234-257 | writes are current while no replace happens between another process's reading and replacing |
| `FileLockProtocol.OneDeviceExactly` | app/services/file_lab_state.py:214-257 | when all processes contend for one device, the file is right over the whole run exactly if no replace raises after it took effect |
| `FileLockProtocol.OneDeviceAgreement` | app/services/file_lab_state.py:208-257 | one device, up to the first such raise: file and guard agree, the last step lost nothing, the second check does not fail |
| `FileLockProtocol.RaiseAfterReplaceLocksOut` | app/services/file_lab_state.py:237-248 | one process and one device: a replace that raises afterwards leaves a reserved record and no guard, which locks the device out |
| `FileLockProtocol.LostUpdateReachable` | app/services/file_lab_state.py:234-244 | with two devices a process can be in its section while the file has no record of it |
| `FileLockProtocol.StaleRecordReachable` | app/services/file_lab_state.py:250-257 | with two devices a released record can come back: all done, no guard left, the file still reserves |
| `FileLockProtocol.StaleRecordLocksOutForever` | app/services/file_lab_state.py:225-236 | after such a record nobody ever enters the section of that device again |
| `LockRefinement.ReserveRefines` | app/services/file_lab_state.py:214-248 | a reservation nobody interrupts leaves exactly the files of the atomic one, and holds exactly if that one succeeds |
| `LockRefinement.ReleaseRefines` | app/services/file_lab_state.py:250-257 | a release nobody interrupts leaves exactly the files of the atomic one |
| `LabLocks.MarkReleasedClears` | app/services/file_lab_state.py:250-257 | releasing clears the active records of one device, leaves those of the others, and loses no record |
| `LabStore.Newest` | app/services/file_lab_state.py:134-142 | the lookup finds a record exactly if one matches, and then a newest one |
| `LabStore.ReserveThenRelease` | app/services/file_lab_state.py:214-257 | reserve and release give the guards back as they were, add one released record, and the device can be reserved again |
| `LabStore.SavedDryRunIsFound` | app/services/file_lab_state.py:89-113 | a dry-run saved after all others is the latest of its device and operation and is found by its hash |
| `LabStore.SavedEvaluationIsFound` | app/services/file_lab_state.py:118-142 | an evaluation saved after all others is the latest one of its plan |
| `LabStore.SaveDryRunKeeps` | app/services/file_lab_state.py:89-101 | the dry-runs after a save are exactly the new one and the old ones of another device, operation or hash; no other list changes |
| `LabStore.OtherDryRunsAreFound` | app/services/file_lab_state.py:89-113 | dry-runs of other plans and other devices are found as before a save |
| `LabStore.SaveEvaluationKeeps` | app/services/file_lab_state.py:118-132 | the evaluations after a save are exactly the new one and the old ones of another device, operation, plan or asked-for hash; no other list changes |
| `LabStore.OtherEvaluationsAreFound` | app/services/file_lab_state.py:118-142 | the latest evaluation of any other plan is the same after a save |
| `LabStore.SaveValidationKeeps` | app/services/file_lab_state.py:147-158 | a certification is added behind all others and changes the latest one of no other device or capability |
| `LabStore.GetDryRunMeans` | app/services/file_lab_state.py:104-113 | a dry-run is found by hash, device and operation exactly if one is stored, and the one found has all three |
| `LabStore.LatestBackupMeans` | app/services/file_lab_state.py:292-298 | the latest backup is a newest one of the device that is sanitized and whose file is usable, and none exactly if there is none |
| `LabStore.LatestValidationMeans` | app/services/file_lab_state.py:170-206 | a certification counts exactly for its device, capability, runtime, vendor and model; a missing driver or platform column of the device accepts any |
| `FileLabState.LabState.HasActiveLock` | app/services/file_lab_state.py:211-212 | true exactly if some record of the device is reserved |
| `FileLabState.LabState.ReserveLock` | app/services/file_lab_state.py:214-248 | refuses without a trace, or adds one guard and one reserved record; which of the two is decided by guard and records |
| `FileLabState.LabState.ReleaseLocks` | app/services/file_lab_state.py:250-257 | the whole state after a release: records marked, guard gone, everything else kept |
| `FileLabState.LabState.ReleaseOrRaise` | app/services/file_lab_state.py:250-257 | a release that raises before or after the replace leaves the guard, and the records as they were or marked |
| `LabStore.AfterRunIs` | app/services/excel_lab_runtime.py:298-377 | a run that starts adds one released record and, if it got that far, one execution record, and keeps the rest; the device can be reserved again exactly if the release did not raise |
| `FileLabState.ExcelLabApplyExecutor.Execute` | app/services/excel_lab_runtime.py:240-377 | a refusal changes nothing; otherwise the store is the one after the run, whatever raised before or after the record was saved or in the release |
| `ExcelLabSafety.TemplatesNeedLabLevel` | app/core/vendor_driver_contracts.py:96-433 | a family with a config template supports that operation, is at lab level and is not one of the blocked families |
| `ExcelLabSafety.JudgeEnvironment` | app/services/excel_lab_safety.py:125-281 | the accumulated sets are right for the flags and the allowlist |
| `ExcelLabSafety.JudgeRuntime` | app/services/excel_lab_safety.py:125-281 | the accumulated sets are right for the runtime and the vendor contract |
| `ExcelLabSafety.JudgeEvidence` | app/services/excel_lab_safety.py:125-281 | the accumulated sets are right for credential, backup, certification and lock |
| `ExcelLabSafety.JudgePlan` | app/services/excel_lab_safety.py:283-335 | the accumulated sets, the commands and their hash are right for rendering and the stored dry-run |
| `ExcelLabSafety.Evaluate` | app/services/excel_lab_safety.py:125-281 | every gate ends up in exactly one of the two sets, rightly, and allowed means that none is denied |
| `ExcelLabSafety.AllowedMeansAllOpen` | app/services/excel_lab_safety.py:125-281 | a decision allows exactly if each of the ten gates is open |
| `ExcelLabSafety.AllowedExactly` | app/services/excel_lab_safety.py:125-281 | an evaluation allows exactly if a plan exists that may be applied: flags, allowlist, transport, family, contract level, credential, fresh backup, certification, hashes, stored dry-run and lock, said without the gates |
| `ExcelLabSafety.RequestGatesExactly` | app/services/excel_lab_safety.py:140-196 | which of the gates for flags, allowlist, runtime, contract and credential are denied, and exactly when |
| `ExcelLabSafety.RecordGatesExactly` | app/services/excel_lab_safety.py:198-258 | the same for backup, certification and lock, in terms of the stored records |
| `ExcelLabSafety.PlanGatesExactly` | app/services/excel_lab_safety.py:228-253 | the same for command safety and simulation hash when the operation has a plan |
| `ExcelLabSafety.NoPlanDenied` | app/services/excel_lab_safety.py:283-335 | without a plan both are denied and the decision carries no command |
| `VendorContracts.TableByColumn` | app/core/vendor_driver_contracts.py:96-433 | which families have which templates, level, read-only commands and supported operations |
| `ExcelLabSafety.AcceptsOnlyOpenGates` | app/services/excel_lab_runtime.py:379-496 | what the executor accepts, even on a stale decision, a fresh evaluation of the current state allows |
| `ExcelLabSafety.OpenGatesPassStateChecks` | app/services/excel_lab_runtime.py:396-496 | when a fresh evaluation allows, none of the executor's state checks refuses |
| `ExcelLabSafety.ExecutorRefinesEvaluator` | app/services/excel_lab_runtime.py:240-496 | a once allowed decision is executed exactly if device, credential and runtime match, a fresh evaluation allows and no guard file is left |
| `ExcelLabSafety.UnchangedStateExecutes` | app/services/excel_lab_runtime.py:379-496 | with nothing changed since the evaluation only a leftover guard file can refuse |
| `ExcelLabSafety.AcceptedExactly` | app/services/excel_lab_runtime.py:240-496 | of any decision, even one no evaluation made, the executor accepts exactly an allowing one that fits device, credential, runtime and plan, with no forbidden command, the plan rehearsed, the evidence for a configuration there, the flags for a real run set, and the device unlocked |
| `EvidenceChain.CertificationRecorded` | scripts/excel_lab.py:966-1056 | a granted certification rests on a stored evaluation denied for nothing but the certification, itself after a stored dry-run |
| `EvidenceChain.EvaluationRecorded` | scripts/excel_lab.py:333-382 | an evaluation denied for at most the certification found its dry-run in the store |
| `EvidenceChain.RecordedAlways` | scripts/excel_lab.py:425-533 | in every state of every run each stored record is backed by the log, and every logged execution is justified |
| `EvidenceChain.EveryExecutionJustified` | app/services/excel_lab_runtime.py:240-377 | whatever got past the executor's checks, on whichever transport and however it ended, had a dry-run of exactly the hash of its commands before it and, for a config operation, a fresh backup and a certification with its evaluation and dry-run before that |
| `InterleavedEvidence.InterleavedExecutionsJustified` | app/services/file_lab_state.py:86-168 | the same when commands interleave: each may read every record file at another earlier moment and overwrite records of others |
| `InterleavedEvidence.AtomicIsInterleaved` | app/services/file_lab_state.py:86-168 | a run of atomic commands is such a run |
| `EvidenceChain.BackupThenDryRunRehearses` | scripts/excel_lab.py:409-465 | backup and dry-run on an eligible device leave only the certification missing |
| `EvidenceChain.EvaluationFound` | scripts/excel_lab.py:333-382 | the recorded evaluation is the latest for its plan and is denied for at most the certification |
| `EvidenceChain.CertificationGranted` | scripts/excel_lab.py:491-533 | after that evaluation the certification is granted |
| `EvidenceChain.CertifiesExactly` | scripts/excel_lab.py:966-1056 | certify records a certification of the device as it is exactly if credential, allowlist, transport, a fresh backup and, for a configuration, template, family, latest dry-run and its latest evaluation permit it; otherwise it changes nothing |
| `EvidenceChain.EvaluationCounts` | scripts/excel_lab.py:1020-1056 | when the latest evaluation of a plan counts for a certification |
| `EvidenceChain.DryRunStoresPlan` | scripts/excel_lab.py:425-465 | a dry-run with a plan that can be hashed is stored under the hash of exactly that plan |
| `EvidenceChain.DryRunNeedsPlan` | scripts/excel_lab.py:425-465 | without such a plan nothing is stored |
| `EvidenceChain.EvaluationSays` | scripts/excel_lab.py:333-382 | what an evaluation record says: the request, the decision and its denied gates, and the private hash of the dry-run that was named |
| `EvidenceChain.OtherDevicesDoNotMatter` | app/services/file_lab_state.py:89-206 | no command for another device changes which backup, dry-run, evaluation or certification of a device is found, or whether it can be reserved |
| `EvidenceChain.RehearsedSurvivesOthers` | app/services/file_lab_state.py:89-206 | so a rehearsed plan stays rehearsed whatever is done for other devices |
| `EvidenceChain.ChainReachesExecution` | app/services/excel_lab_runtime.py:240-377 | for an eligible, unlocked device the whole chain ends in an allowed decision that the executor accepts, on the fake transport and, with the flags set, on the real one |
| `CanaryPlan.NormalizeCanaryPlan` | app/services/password_rollout_service.py:23-38 | the plan has only positive sizes and sums to the device count, whatever integers were asked for |
| `CanaryPlan.FixedPoints` | app/services/password_rollout_service.py:23-38 | a plan is left alone exactly if it is positive and sums to the device count; normalizing twice is normalizing once |
| `CanaryPlan.RequestHonoured` | app/services/password_rollout_service.py:28-35 | requested sizes are kept as long as the devices suffice |
| `CanaryPlan.SizesExactly` | app/services/password_rollout_service.py:23-38 | every size: batch k has the k-th positive requested size or what is left, whichever is less; the rest is one batch; no or an empty request stands for 1, 5, 20 |
| `CanaryPlan.CreateBatches` | app/repositories/password_rollout.py:19-50 | the running offset slices the task list by the plan, with Python's slice bounds |
| `CanaryPlan.BatchAt` | app/repositories/password_rollout.py:19-50 | batch k is the stretch of tasks between two consecutive partial sums |
| `CanaryPlan.NormalizedPlanPartitions` | app/repositories/password_rollout.py:19-50 | a normalized plan partitions the tasks in order with no gap, overlap or empty batch, and the first k batches hold a prefix of the sum of k sizes |
| `PasswordRollout.CreatePasswordChangeJob` | app/services/password_change_service.py:113-121 | a job is created exactly if there are devices, a username that is not blank, a password and only positive requested sizes |
| `PasswordRollout.PasswordRolloutJob.constructor` | app/services/password_change_service.py:45-84 | a new job waits for approval with its secret stored, and each task is in exactly one place of one batch |
| `PasswordRollout.PasswordRolloutJob.ApproveJob` | app/services/job_service.py:105-126 | the whole state after approve, and when it is refused |
| `PasswordRollout.PasswordRolloutJob.CancelJob` | app/services/job_service.py:128-152 | the whole state after cancel: exactly the pending tasks are skipped, and when it is refused |
| `PasswordRollout.PasswordRolloutJob.PauseRollout` | app/services/password_rollout_service.py:156-172 | the whole state after pause, and when it is refused |
| `PasswordRollout.PasswordRolloutJob.ResumeRollout` | app/services/password_rollout_service.py:174-190 | the whole state after resume, and when it is refused |
| `PasswordRollout.PasswordRolloutJob.GetNextPendingBatch` | app/repositories/password_rollout.py:63-70 | the first pending batch, and every one before it is not pending |
| `PasswordRollout.PasswordRolloutJob.RunNextBatch` | app/services/password_rollout_service.py:76-154 | refused exactly if the job is not approved, is cancelled, paused, succeeded or failed, or lacks dry-run, backup or verification; otherwise the whole state after the next pending batch |
| `PasswordRollout.PasswordRolloutJob.RunTasks` | app/services/password_rollout_service.py:112-124 | every task of the batch runs once, also after a failure, and the batch failed exactly if one did not succeed |
| `PasswordRollout.CreatedMembers` | app/services/password_change_service.py:45-84 | batch k of a new job holds the tasks that start at the k-th partial sum of the normalized plan |
| `PasswordRollout.TasksRunAtMostOnce` | app/services/password_rollout_service.py:76-154 | over every run a task ran once if its batch is finished and never otherwise, and nothing after an unfinished batch is finished |
| `PasswordRollout.NothingRunsUnapproved` | app/services/password_rollout_service.py:84-85 | a task only ever runs as part of the next pending batch of an approved, uncancelled job |
| `RolloutEffects.ExecutesExactly` | app/services/password_rollout_service.py:76-124 | in every run a step executes a task exactly if it runs a batch of an approved job that is not cancelled, paused, succeeded or failed, has dry-run, backup and verification on, and whose next pending batch holds the task |
| `RolloutEffects.WithoutFlagsNothingRuns` | app/services/password_rollout_service.py:88-93 | a job created without a dry-run, backup or verification never executes a task |
| `RolloutEffects.TaskStatusExactly` | app/services/password_rollout_service.py:112-124 | an executed task has the status its one execution returned; any other is skipped if the job is cancelled and pending otherwise |
| `RolloutEffects.ApprovalHasCause` | app/services/job_service.py:105-126 | an approved job was approved by an earlier step |
| `RolloutEffects.AfterBatch` | app/services/password_rollout_service.py:122-136 | batch and job after a batch ran: decided by whether all its tasks succeeded, whether it was the last, and the mode |
| `RolloutEffects.ControlCalls` | app/services/job_service.py:105-152 | what approve, pause, resume and cancel do to a reachable job, from every status |
| `RolloutEffects.EndedForever` | app/services/password_rollout_service.py:78-83 | a cancelled or a succeeded job never changes again |
| `RolloutEffects.PausedStays` | app/services/password_rollout_service.py:156-190 | an approved job that was paused changes in nothing until it is resumed or cancelled |
| `RolloutEffects.CanStillSucceedExactly` | app/services/password_rollout_service.py:76-190 | some continuation ends in success exactly if the job has succeeded, or is neither cancelled nor failed, has its three flags and a batch is pending |
| `PasswordRollout.FailureHaltsForever` | app/services/password_rollout_service.py:125-127 | with stop-on-first-failure, after a failed batch the job stays failed or cancelled and no batch or task ever moves again |
| `PasswordRollout.FailureTouchesOnlyThePrefix` | app/repositories/password_rollout.py:19-50 | when batch b failed, exactly the tasks below the sum of the first b + 1 sizes have run |
| `PasswordRollout.SecretLifetime` | app/services/password_rollout_service.py:205-219 | the secret exists exactly until the job succeeded, so it exists while any batch is pending |
| `PasswordRollout.SucceededMeans` | app/services/password_rollout_service.py:125-136 | succeeded exactly if the last batch succeeded; all batches succeeded exactly if also none failed, which stop-on-first-failure guarantees |
| `PasswordRollout.BatchHasRun` | app/services/password_rollout_service.py:95-136 | a finished batch was run by one earlier step, and succeeded exactly if all its tasks did there |
| `RolloutExecution.SucceededRolloutChangedEveryDevice` | app/services/password_rollout_service.py:112-136 | with stop-on-first-failure, behind a succeeded rollout each device was changed under its lock, with its own backup, and saved after an accepted verification |
| `PasswordRollout.SucceededDespiteFailure` | app/services/password_rollout_service.py:131-136 | without stop-on-first-failure a run ends as succeeded with a failed batch |
| `PasswordRollout.NothingLeftToComplete` | app/services/password_rollout_service.py:205-213 | in a reachable state without a pending batch, running the next batch changes nothing |
| `DeviceLocks.LockService.Acquire` | app/services/lock_service.py:27-55 | refused exactly if the device has an unexpired lock; otherwise the device has the new one, an expired row being replaced |
| `DeviceLocks.LockService.Release` | app/services/lock_service.py:57-69 | the row of the device is gone, whoever held it, and no other row changed |
| `DeviceLocks.LockService.IsLocked` | app/services/lock_service.py:71-78 | true exactly if the device has an unexpired lock; at most its expired row is removed |
| `DeviceLocks.LazyExpiryIsInvisible` | app/services/lock_service.py:27-78 | for calls in time order every answer is the one a table without expired rows would give |
| `DeviceLocks.ExclusionExactly` | app/services/lock_service.py:27-69 | a whole run keeps sections on one device apart exactly if nobody tries to enter a device whose holder is past its time to live |
| `DeviceLocks.WithinTtlExcludes` | app/services/lock_service.py:27-69 | if all holders stay within their time to live, sections exclude and each holder's lock is live and its own |
| `DeviceLocks.LateReleaseEvictsSuccessor` | app/services/lock_service.py:57-69 | one late holder can put two others, both within their time to live, on one device |
| `TaskExecutor.JobExecutionService.ExecuteTask` | app/jobs/executors.py:112-172 | final status, attempt, backup id, events, noted locks and lock table of one task, also when the release of the lock raises (TaskOutcomes says which status and how far) |
| `TaskExecutor.JobExecutionService.FinishTask` | app/jobs/executors.py:144-172 | the handlers and the finally block: succeeded, skipped or failed; a noted lock is given back and forgotten, or kept in both places if the release raises |
| `TaskExecutor.JobExecutionService.ExecuteBody` | app/jobs/executors.py:295-361 | the checks in their order, then the lock; nothing is done and no lock is noted when it is refused |
| `TaskExecutor.JobExecutionService.ExecuteLocked` | app/jobs/executors.py:194-238 | backup, open, the stages, and the close on every way out |
| `TaskExecutor.JobExecutionService.RunOnTransport` | app/jobs/executors.py:379-436 | configure, verify and save in order, each only after the one before |
| `TaskExecutor.JobExecutionService.RunStage` | app/jobs/executors.py:215-233 | a stage with what may raise after it and before the next one |
| `TaskExecutor.JobExecutionService.SendAll` | app/jobs/executors.py:215-233 | all commands go out even after one was rejected, and only an exception cuts the stage short |
| `TaskExecutor.ScriptThenCleanup` | app/jobs/executors.py:112-436 | for every pattern of outcomes and of exceptions in and between the stages: a beginning of the script, then a close exactly if opened and an unlock exactly if a lock is noted and its release does not raise |
| `TaskExecutor.StagesInOrder` | app/jobs/executors.py:194-238 | events come in the order lock, backup, open, configure, verify, save, close, unlock |
| `TaskExecutor.SaveOnlyAfterVerification` | app/jobs/executors.py:386-424 | a save command goes out only after every configuration command and every check went out and was accepted |
| `TaskExecutor.SucceededExactly` | app/jobs/executors.py:240-293 | succeeded exactly if every gate, the lock and every stage worked and nothing raised between them |
| `TaskExecutor.SucceededDidEverything` | app/jobs/executors.py:112-293 | a task that succeeds ran its whole script, closed and unlocked, and has this run's backup id |
| `TaskOutcomes.SucceedsExactly` | app/jobs/executors.py:174-293 | succeeded exactly if kind of job, driver, transport clearance, verification and credentials are right, the lock is free, and no command is rejected and nothing raises |
| `TaskOutcomes.VlanStatusExactly` | app/jobs/executors.py:132-172 | a VLAN task ends as succeeded, failed or skipped; skipped exactly if a right, uncancelled job meets a driver that cannot apply, or it was skipped before and is refused as unsafe |
| `TaskOutcomes.PasswordStatusExactly` | app/jobs/executors.py:240-317 | a password task ends as succeeded, failed or skipped; skipped exactly if a right, uncancelled job with dry-run, backup and verification meets a driver that cannot apply |
| `TaskOutcomes.HowFarExactly` | app/jobs/executors.py:174-436 | how many events of its script a task does, as an equivalence for each of them: lock, backup, open and every single command |
| `TaskOutcomes.ReportIsTrue` | app/jobs/executors.py:194-210 | the task notes a backup id exactly if that backup was made |
| `TaskExecutor.NothingHappensUnlessCleared` | app/jobs/executors.py:174-194 | any event but a late unlock needs a free lock, a supported and verifiable apply, an uncancelled job, and clearance for a real transport |
| `TaskExecutor.RefusedReleasesNothingExactly` | app/jobs/executors.py:166-172 | a task refused the lock releases nothing exactly if no lock of its device is still noted from a release that raised; otherwise it deletes the lock that refused it |
| `ConcurrentTasks.TasksDoNotMix` | app/jobs/executors.py:112-293 | of any number of task executions on one lock table, events of two never mix on a device as long as nobody starts on a device whose holder is past its time to live |
| `ConcurrentTasks.ActsInSection` | app/jobs/executors.py:194-238 | whatever the clock does, an execution with anything to do yet has not left its section |
| `ConcurrentTasks.TraceShape` | app/jobs/executors.py:174-198 | what an execution does begins with a lock that was free, takes no other, and gives it back at most at the very end |
| `ChangeExecution.ChangeExecutionService.CreateExecution` | app/services/change_execution_service.py:39-59 | the new execution is a draft and nothing else changed |
| `ChangeExecution.ChangeExecutionService.ValidateLocks` | app/services/change_execution_validation_service.py:157-179 | true exactly if another execution holds a reserved lock on a target or the source workflow |
| `ChangeExecution.ChangeExecutionService.FindReservedLock` | app/repositories/change_executions.py:212-233 | true exactly if such a row of another execution exists |
| `ChangeExecution.ChangeExecutionService.ValidateExecution` | app/services/change_execution_validation_service.py:55-69 | from any status: blocked or validated, nothing else changed |
| `ChangeExecution.ChangeExecutionService.BuildExecutionPlan` | app/services/change_execution_service.py:70-74 | refused on errors, otherwise planned |
| `ChangeExecution.ChangeExecutionService.SubmitForApproval` | app/services/change_execution_service.py:76-90 | from any status: refused on errors or without a plan, otherwise approved or a new pending request |
| `ChangeExecution.ChangeExecutionService.ApproveExecution` | app/services/change_execution_service.py:92-100 | decides the newest request, is idle when ready, refused otherwise |
| `ChangeExecution.ChangeExecutionService.RejectExecution` | app/services/change_execution_service.py:102-108 | decides the newest request, refused unless pending |
| `ChangeExecution.ChangeExecutionService.ReserveLocks` | app/services/change_execution_service.py:110-156 | refused on a conflict or a wrong status; adds rows only if there are none |
| `ChangeExecution.ChangeExecutionService.CreateLocks` | app/repositories/change_executions.py:186-202 | one reserved row for each target and the workflow, in order |
| `ChangeExecution.ChangeExecutionService.ReleaseExecutionLocks` | app/repositories/change_executions.py:235-242 | exactly the rows of the execution become released |
| `ChangeExecution.ChangeExecutionService.MarkExecutionReady` | app/services/change_execution_service.py:169-182 | ready exactly if there are no errors, a plan, all locks and the approval |
| `ChangeExecution.ChangeExecutionService.SimulateExecution` | app/services/change_execution_simulation_service.py:21-42 | simulated exactly from ready with a plan |
| `ChangeExecution.ChangeExecutionService.CancelExecution` | app/services/change_execution_service.py:187-194 | idle when simulated or cancelled, otherwise cancelled with its locks released |
| `ChangeExecution.LocksExclude` | app/services/change_execution_service.py:110-156 | in every reachable state two different executions hold no reserved lock on a common device or source workflow |
| `ChangeExecution.ApprovalAlwaysAgrees` | app/repositories/change_executions.py:244-272 | in every reachable state the newest request of an execution that needs approval says what its status says |
| `ChangeExecution.ReadyHasCause` | app/services/change_execution_service.py:169-182 | a ready execution was marked ready, with every gate open, and stayed ready since |
| `ChangeExecution.ApprovedHasCause` | app/services/change_execution_service.py:76-100 | an approved or ready execution that needs approval was approved while its request was pending, and none was made since |
| `ChangeExecution.SimulationIsJustified` | app/services/change_execution_simulation_service.py:21-42 | behind every simulation: a mark as ready with no errors, a plan and all locks, the status kept since, and the approval of the newest request |
| `ChangeExecution.ReadyKeepsLocks` | app/services/change_execution_validation_service.py:282-292 | a lock held when marked ready is still held while ready, unless released explicitly |
| `ChangeExecution.CancelledHoldsNothing` | app/services/change_execution_service.py:187-194 | over every run a cancelled execution holds no lock |
| `ChangeExecution.HoldsAfter` | app/services/change_execution_service.py:110-194 | how each call changes who holds what: cancel and release take away all of one execution, a first reserve adds what it asks for, nothing else changes a lock |
| `ChangeExecution.MovesExactly` | app/services/change_execution_service.py:39-194 | which call leads from which status to which, under which condition, and that no other execution changes |
| `ChangeExecution.AnswersExactly` | app/services/change_execution_service.py:39-194 | which calls return and which raise |
| `ChangeExecution.RowsAfter` | app/repositories/change_executions.py:244-272 | when an execution becomes planned and what becomes of its approval requests |
| `ChangeExecution.CreateAdds` | app/services/change_execution_service.py:39-59 | a new execution is an unplanned draft without requests or locks, and nothing else changes |
| `ChangeExecution.CancelMakesRoom` | app/services/change_execution_service.py:187-194 | an execution kept out only by the locks of another can reserve once that one is cancelled |
| `ChangeExecution.RouteSimulates` | app/services/change_execution_service.py:61-194 | from any status an execution that never had locks, with no errors and nobody in the way, reaches a simulation by six calls and then holds all it asks for |
| `ChangeExecution.ReadyExecutionsExclude` | app/services/change_execution_service.py:158-182 | no device is a target of two executions that are ready together, unless one of them was released explicitly since it became ready |
| `ChangeExecution.ReleasedForever` | app/services/change_execution_service.py:123-124 | once its rows are released an execution never holds a lock again, and is marked ready only if it needs none |
| `ChangeExecution.ReserveExactly` | app/services/change_execution_service.py:110-156 | an accepted reservation leaves everything locked exactly if there were no rows before or all was locked already |
| `ChangeExecution.ExplicitReleaseLetsAnotherIn` | app/services/change_execution_service.py:158-167 | after an explicit release a ready execution stays ready, another one becomes ready on its targets, and both simulate |
| `ChangeExecution.DoubleReadyIsReachable` | app/services/change_execution_service.py:158-182 | a run exists, with sources as the service can find them, in which two rollouts with different ids are ready together for one device |
| `ChangeExecution.AloneExactly` | app/services/change_execution_service.py:110-182 | in every reachable state a ready execution still holds a device exactly if no continuation that leaves it ready and does not release it explicitly can mark another one ready for that device |
| `ExecutionPlan.ChangeExecutionPlanService.BaseSteps` | app/services/change_execution_plan_service.py:189-202 | the base steps are a chain numbered from 1, with or without the rollback step |
| `ExecutionPlan.ChangeExecutionPlanService.DeviceSteps` | app/services/change_execution_plan_service.py:55-144 | one step per device behind the approval gate, then finalize over all of them; base steps only without a source |
| `ExecutionPlan.ChangeExecutionPlanService.BuildStepsForSource` | app/services/change_execution_plan_service.py:43-53 | the graph of each kind of source |
| `ExecutionPlan.ChangeExecutionPlanService.BuildExecutionPlan` | app/services/change_execution_plan_service.py:28-41 | a stored plan is returned as it is, and a plan is never empty |
| `ExecutionPlan.PlanGroundedExactly` | app/services/change_execution_plan_service.py:43-159 | orders are 1 to n and every dependency is an existing smaller order, exactly if the source is not manual |
| `ExecutionPlan.FinalizeClosesExactly` | app/services/change_execution_plan_service.py:43-159 | a plan ends in a finalize step that is behind every other step exactly if the source is composite, or it is not manual, has an id and has a device |
| `ExecutionPlan.CompositeClosed` | app/services/change_execution_plan_service.py:146-159 | the composite plan is a chain that finalize closes |
| `ExecutionPlan.ChecksExactly` | app/services/change_execution_plan_service.py:189-202 | every plan begins with the same checks in a chain to the approval gate, and only that of a VLAN workflow has a rollback step among them |
| `ExecutionPlan.DeviceStepsExactly` | app/services/change_execution_plan_service.py:55-144 | behind the gate one step per target device in order, of the kind of the source and depending on the gate, then a finalize step that depends on exactly these |
| `ExecutionPlan.OtherStepsExactly` | app/services/change_execution_plan_service.py:53-53 | the steps behind the gate for a composite and for a manual source |
| `ExecutionPlan.ChangeExecutionSimulationService.SimulateSteps` | app/services/change_execution_simulation_service.py:21-42 | the steps and outputs after a simulation |
| `ExecutionPlan.ChangeExecutionSimulationService.SimulateStep` | app/services/change_execution_simulation_service.py:44-75 | a simulated, blocked, failed or cancelled step stays; any other ends simulated with its output, and no other step changes |
| `ExecutionPlan.ChangeExecutionSimulationService.CountPrior` | app/services/change_execution_simulation_service.py:121-128 | the number of steps that are not finalize |
| `ExecutionPlan.SimulatedAfterDependencies` | app/services/change_execution_simulation_service.py:32-33 | when a step's turn comes, all its dependencies are simulated |
| `ExecutionPlan.PlansSimulateInOrder` | app/services/change_execution_simulation_service.py:21-42 | every plan of a source that is not manual simulates in dependency order and to the end |
| `ExecutionPlan.AllSimulatedExactly` | app/services/change_execution_simulation_service.py:44-49 | a simulation ends with every step simulated exactly if none was blocked, failed or cancelled |
| `ExecutionPlan.ResimulationChangesNothing` | app/services/change_execution_simulation_service.py:44-49 | simulating again, after a full or an interrupted simulation, gives the same steps and outputs as one simulation |
| `ExecutionPlan.SimulationSays` | app/services/change_execution_simulation_service.py:44-128 | each step after a simulation: its place kept, its output about its own type and device, or for finalize the number of steps that are not finalize |
| `ExecutionPlan.PlanSummary` | app/services/change_execution_simulation_service.py:121-128 | the simulated plan of a source with an id ends in the number of its checks and target devices |
| `SnapshotHistory.ConfigHistory.BackupDeviceConfig` | app/services/config_backup_service.py:90-120 | refused without a trace exactly for an unsupported device; otherwise the table and the diffs after a backup or an import |
| `SnapshotHistory.ConfigHistory.CreateDiffIfChanged` | app/services/config_diff_service.py:67-79 | one diff more exactly if there is a previous snapshot with another hash |
| `SnapshotHistory.ConfigHistory.DeleteOldSnapshots` | app/repositories/config_snapshots.py:139-169 | the table and the diffs after a retention pass, and its count |
| `SnapshotHistory.RetentionKeepsPrefix` | app/repositories/config_snapshots.py:139-169 | each device keeps a newest-first prefix: exactly the snapshots not older than the cutoff and within the limit |
| `SnapshotHistory.DiffsFollowSnapshots` | app/repositories/config_snapshots.py:156-165 | a diff survives exactly if both its snapshots do |
| `SnapshotHistory.RetentionCounts` | app/repositories/config_snapshots.py:166-169 | the returned number is the number of removed snapshots |
| `SnapshotHistory.RetentionIsStableExactly` | app/repositories/config_snapshots.py:148-153 | a second pass removes nothing exactly if there is no limit, it is not negative, or nothing is left |
| `SnapshotHistory.DriftIgnoresTheCache` | app/services/config_diff_service.py:81-116 | in every run, whatever the clock does, drift detection answers the same from a stored diff as by recomputing |
| `DriftDetection.DriftExactly` | app/services/config_diff_service.py:81-116 | in every reachable state drift is detected exactly if the newest and the newest but one snapshot of the device differ in their hash, and is then summarized from the older text to the newer |
| `DriftDetection.NoDriftWithoutTwo` | app/services/config_diff_service.py:81-99 | with one snapshot or none nothing is detected |
| `DriftDetection.TwoBackupsDrift` | app/services/config_diff_service.py:81-116 | over a run: after two consecutive backups of a device at rising times drift is detected exactly if the hashes of their texts differ |
| `DriftDetection.BackupAdds` | app/services/config_backup_service.py:90-120 | over a run: a backup adds exactly its snapshot, and a diff from the newest one before exactly if the hashes differ |
| `DriftDetection.RetainedExactly` | app/repositories/config_snapshots.py:139-169 | which snapshots a pass keeps, by age and by the number of newer ones, for limits of either sign |
| `SnapshotHistory.BackupCoversExactly` | app/services/config_backup_service.py:102-119 | a backup keeps the diffs between consecutive snapshots of its device complete exactly if its snapshot comes first or between snapshots of its own hash |
| `SnapshotHistory.DiffsAreCompleteExactly` | app/services/config_backup_service.py:90-120 | over a run of backups and retention passes a diff between consecutive surviving snapshots of a device is always stored exactly if their hashes differ, exactly if each of its backups came so |
| `SnapshotHistory.DiffsAreComplete` | app/services/config_backup_service.py:90-120 | so they are if each backup of the device is stamped later than the newest snapshot of that device |
| `SnapshotHistory.CompletenessNeedsTheClock` | app/services/config_backup_service.py:102-119 | a backup stamped before the newest snapshot leaves a consecutive pair without its diff |
| `BackupJob.ConfigBackupJob.RunBackupJob` | app/services/config_backup_service.py:57-88 | refused when cancelled; otherwise the items, the job's status and the snapshot history after the run |
| `BackupJob.ConfigBackupJob.RunItems` | app/services/config_backup_service.py:62-79 | every item that is not yet a success is tried once, whatever the others did, and each success is one more backup in the history |
| `BackupJob.ConfigBackupJob.RunItem` | app/services/config_backup_service.py:63-79 | one item: success with a snapshot, unsupported by the kind of device, or failed; a success stays as it is |
| `BackupJob.ConfigBackupJob.Judge` | app/repositories/config_backups.py:109-118 | the final status from the counters |
| `BackupJob.VerdictExactly` | app/services/config_backup_service.py:80-87 | completed exactly if every device has its snapshot, failed exactly if one failed and none has one |
| `BackupJob.ItemAfterRun` | app/services/config_backup_service.py:62-79 | what a run makes of each item, exactly: success, unsupported or failed |
| `BackupJob.BackupsExactly` | app/services/config_backup_service.py:62-79 | the backups a run makes are exactly those of its readable items that were no success yet, of what was read there |
| `BackupJob.OneSnapshotPerItem` | app/services/config_backup_service.py:62-64 | over any number of runs a job makes as many snapshots as items came to success, so at most one per item |
| `NextRun.ComputesExactly` | app/services/config_backup_service.py:155-174 | a next run is computed exactly for a known zone and a well-formed expression in range; everything else raises |
| `NextRun.NextRunIsSoonAndMatches` | app/services/config_backup_service.py:155-174 | the next run is after now, at most one period away, and a time the schedule asks for |
| `NextRun.NextRunExactly` | app/services/config_backup_service.py:155-174 | the next run is the one instant after now and within a period at which the numeric fields are met and a starred minute is the current one |
| `NextRun.LeastExactly` | app/services/config_backup_service.py:155-174 | it is the least such time exactly if the minute is numeric, or the hour is, the current minute is 0 and the hour a different one |
| `InventoryImport.InventoryValidationService.ImportInventory` | app/services/inventory_validation_service.py:48-64 | the device table, the credential assignments, the status of each row and the counters after a batch |
| `InventoryImport.InventoryValidationService.ProcessRow` | app/services/inventory_validation_service.py:171-225 | the status of one row, the table after it and the credential assignment it adds |
| `InventoryImport.InventoryValidationService.UpsertDevice` | app/repositories/device_inventory.py:23-45 | the device with the address is updated in place, or one is added |
| `InventoryImport.FinishBatch` | app/repositories/inventory_imports.py:120-138 | the counters count the row statuses |
| `InventoryImport.AlwaysUnique` | app/services/inventory_validation_service.py:199-204 | after any sequence of imports addresses are unique and so are hostnames where there is one |
| `InventoryImport.ImportLands` | app/repositories/device_inventory.py:23-45 | the addresses after an import are those before and those of the accepted rows |
| `InventoryImport.CountersAddUp` | app/repositories/inventory_imports.py:120-138 | every row is counted once, created rows are the growth of the table, and a dry run changes no device |
| `ImportEffects.StatusExactly` | app/services/inventory_validation_service.py:171-225 | a row is invalid exactly if it is malformed, wants the hostname of another address or lacks a demanded credential; otherwise valid, created or updated |
| `ImportEffects.RowWrites` | app/repositories/device_inventory.py:23-45 | what an accepted row writes into its device, that a row without a credential takes the credential status away, and that every other device stays where and as it was |
| `ImportEffects.LastRowWins` | app/services/inventory_validation_service.py:171-225 | the last accepted row of an address has the last word on its device |
| `ImportEffects.UntouchedDevice` | app/services/inventory_validation_service.py:171-225 | a device whose address no accepted row has stays as it was |
| `ImportEffects.AssignmentsExactly` | app/services/inventory_validation_service.py:212-220 | a batch adds exactly the assignments of its accepted rows with a credential |
| `ImportEffects.AssignmentCount` | app/services/inventory_validation_service.py:212-220 | one for each of them |
| `ImportEffects.CountMeans` | app/repositories/inventory_imports.py:120-138 | a counter is the number of rows with a status it counts |
| `InventoryImport.DryRunForeseesExactly` | app/services/inventory_validation_service.py:199-210 | a dry run judges every row of a batch as the import does exactly if the valid rows before a row neither claim its free hostname for another address nor free its taken one |
| `InventoryImport.DryRunMissesInBatchDuplicates` | app/services/inventory_validation_service.py:199-210 | claimed: two rows with one hostname are both valid in a dry run, and the second is invalid in the import |
| `InventoryImport.DryRunMissesFreedHostname` | app/services/inventory_validation_service.py:199-210 | freed: a row renames the holder of a hostname that the next row wants; the dry run refuses that row and the import accepts it |

## Left out

- HTTP routers, request schemas, migrations, the database session and audit rows: plumbing around the modelled calls.
- SSH and Netmiko transports, encryption, secret masking, config sanitizing, `difflib` and command templates: uninterpreted or inputs.
- `normalize_config_for_diff` and `summarize_config_changes`: text processing; part of the uninterpreted summary function.
- Vendor drivers, driver resolution and model normalization: long tables of strings and patterns; their outcome is an input.
- Of the contract table only support level, supported and forbidden operations, read-only commands and template presence.
- `scripts/lab_prototype.py`, which writes locks and validations directly, and the database-backed apply safety kernel.
- `LabStore.SaveDryRun`: record lists are in the order of saving, not sorted by creation time; every lookup goes by key or by creation time, and records of one time are in the same order.
- `BackupJob.ConfigBackupJob.RunItem`: an exception after the snapshot was stored, which leaves it behind a failed item, is not modelled.
- `stop_rollout_on_failure`, which nothing in the modelled code calls, and `execute_job`, a loop over the tasks modelled here.
- Operator console, observability, reports and human-readable formatting: read-only.
- `ConcurrentTasks.TasksDoNotMix`: no execution notes a lock of an earlier one whose release raised; that case is in TaskExecutor.
- `InterleavedEvidence.InterleavedExecutionsJustified`: each file is read at one moment by a command; guards and locks may be anything, FileLockProtocol has their steps.
- `TaskExecutor.JobExecutionService.ExecuteTask`: the two entry points are one method with a path argument; an exception inside `acquire` after the row was stored is not modelled.
- `ExecutionPlan.ChangeExecutionPlanService.DeviceSteps`: the three source-specific builders, alike but for step type and rollback step, are one method; step names and planned actions are not modelled.
- `ChangeExecution.ChangeExecutionService.SimulateExecution`: the transient status `simulating` inside the call is not a state; the steps are in ExecutionPlan.
- `SnapshotHistory.ConfigHistory.BackupDeviceConfig`: rows are held in listing order instead of being sorted by each query.
- `NextRun.ComputesExactly`: zones with a fixed offset only, no daylight-saving shifts; the last three fields are ignored, as in the code.
- `InventoryImport.InventoryValidationService.ProcessRow`: other metadata is one attribute.
- `PasswordRollout.PasswordRolloutJob.RunNextBatch`: a task whose lock release raises ends the call with an exception and is not a step; what a task does is one outcome here; TaskExecutor and RolloutExecution say what stands behind it.
