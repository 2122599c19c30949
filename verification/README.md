# Verified models of the Studio backend's concurrent protocols

The backend keeps several small protocols in plain Python state: who may switch a robot to
a policy, who holds a GPU, which job a cancel reaches, what is left of an upload after the
connection drops. This project models them in Dafny 4.11 and proves what they keep in every
interleaving. `dafny verify dfyconfig.toml` checks all of it.

Each protocol has a transition system whose steps are the locked sections, database
statements or stretches between two awaits of the source, and theorems over all runs of that
system. Where the source changes fields in place, a class has those fields and methods, and
each method is proved to do what the step functions say.

| protocol | transition system or functions | theorems | objects |
|---|---|---|---|
| policy arming and loading | `PolicyProtocol`, `Teleoperation` | `PolicySafety`, `PolicySkip`, `PolicyOutcomes` | `ActionSource` |
| remote trainer queue | `TrainerQueue` | `TrainerSafety`, `TrainerOutcomes` | `QueueManager` |
| resumable dataset upload, both ends | `ContentRange`, `Upload`, `UploadClient` | same | `DatasetUpload` |
| Studio job scheduler | `TargetKeys`, `JobScheduler` | `SchedulerSafety`, `SchedulerSteps`, `SchedulerTheorems`, `SchedulerInterrupts`, `SchedulerCancel`, `SchedulerRemoteId`, `SchedulerRecovery`, `SchedulerOutcomes` | `SchedulerObject` |
| host setup against submission | `SetupExclusion`, run on top of `JobScheduler` | same | `SetupObject` |
| session command worker | `CommandProtocol` | `CommandSafety`, `CommandTheorems`, `CommandIds` | `CommandWorker` |
| camera claims, event sink | `CameraClaims`, `EventSink` | same | same |
| SSH config reader and writer | `SshText`, `SshConfigReader`, `SshAliases` | `SshIncludes`, `SshAliases`, `SshConfigWriter`, `SshSections` | `SshConfigWriter` |

## What the code does not do

The models follow the code. Where that differs from its comments or from what one would
expect, a lemma gives a run or an input that shows it and another says exactly when it
happens.

- A load that was skipped because its model is attached can be followed by another model
  attaching: the staleness check and the attach of a loader are two critical sections, so an
  older load may attach between them, make a repeated request for its model skip, and then be
  replaced by the load in between
  (`PolicySkip.SkipCanBeUndone`, `PolicySkip.SkipIsDurableIff`). In the same window a model
  can be recorded as attached without being marked loaded (`PolicySkip.LateAttachUnpublishes`).
- A canceled training job can end FAILED: the reaper reads the row, the interrupt cancels it,
  and the reaper's update is unconditional (`SchedulerTheorems.LateReapHappens`,
  `SchedulerTheorems.TerminalChangesIff`); `SchedulerCancel.CancelIsFinalIff` says when a
  cancel is final, as it stands at the cancel.
- A batch job's cancellation flag set between its worker's claim and that worker's first write is
  erased, because the write merges the whole row as it was claimed
  (`SchedulerOutcomes.FlagCanBeErased`, exactly when: `SchedulerOutcomes.FlaggedIff`). The cancel
  event of the same request is not affected.
- An upload whose bytes are all staged but not extracted can no longer be resumed with the
  true total (`Upload.ResumableIff`, `Upload.BrokenExtractionBlocksResume`). The uploader that
  asks for the offset then reports success although the job awaits its dataset for good
  (`UploadClient.SuccessCanBeEmpty`), and after a lost reply it reports failure although the
  job is queued (`UploadClient.FailureCanBeSuccess`). `UploadClient.ReportedCanBeQueuedIff` and
  `UploadClient.FailureIsWrongIff` say exactly when.
- The tick on which a leader fails for good does not always end in hold: an arm thread that
  ends inside it leaves policy mode (`Teleoperation.LimitLeavesTeleop`).
- `Keyword = value` is called valid in the SSH reader, but the sign becomes the value
  (`SshText.ParseEquals`). An alias whose effective port is out of range makes the whole
  listing fail (`SshAliases.ListingFailsIff`). A written value that would need quoting does not read
  back (`SshConfigWriter.AppendedAliasReadsBack`).
- Two command-worker submissions under one request id can exchange acknowledgements, exactly
  when the second is accepted while the first is outstanding (`CommandIds.SharedIdsMixIff`).

## Assumptions

- Disconnecting a policy source and emitting an event do not raise; lock and queue
  operations are atomic.
- A database statement takes effect at one instant and has ended when its caller goes on; a
  failed statement ends the scheduler's current pass. Worker processes may die at any step,
  and the whole process may restart at any step; its workers end with it, although they are
  not daemons and the operating system would let them outlive a parent that was killed.
- An upload's bodies are bytes of one archive from their declared start, and one request at a
  time is served for a job.
- A camera's fingerprint is its canonical text. Include patterns name the same files
  throughout one reading; `SshIncludes.ParsedIffReachable` also assumes that what a file
  includes does not depend on the name it was reached by.

## Model

| member | source | states |
|---|---|---|
| PolicySafety.ArmingMeansOneLiveWarmup | application/backend/src/runtime/action_source.py:324-371 | in every reachable state of control, arm, loader and teardown threads, `_arming` holds exactly when one in-flight warm-up carries the current arm generation, and that warm-up's policy is the attached one |
| PolicySafety.GenerationTestSuffices | application/backend/src/runtime/action_source.py:386-411 | the `is self._policy` test at the end of a warm-up never decides anything the generation test has not decided |
| PolicySafety.SwitchIsFreshlyArmed | application/backend/src/runtime/action_source.py:324-411 | whenever the follower switches to policy mode, some arm began after the last stop, hold, teleop, non-skipped load, policy replacement or shutdown, on the very policy that is attached at the switch |
| PolicySafety.RevokedWarmupIsInert | application/backend/src/runtime/action_source.py:386-419 | an arm in flight when it is revoked, its thread started or not, never changes the shared state when it ends |
| PolicyOutcomes.LiveArmEntersPolicyMode | application/backend/src/runtime/action_source.py:386-419 | in every reachable state a warm-up of the current arm that ends well puts the follower in policy mode with nothing arming, from hold as from teleop; a failed one only ends the arming |
| PolicyOutcomes.LiveArmWithoutSnapshotEntersPolicyMode | application/backend/src/runtime/action_source.py:352-364 | the same for a current arm that has no observation to warm up with |
| PolicyOutcomes.ArmSucceedsIff | application/backend/src/runtime/action_source.py:324-411 | in every run an arm that ends well enters policy mode exactly when no step since it began revoked it or began another arm; otherwise its end changes nothing |
| PolicyOutcomes.RequestTakesEffect | application/backend/src/runtime/action_source.py:274-322 | in every run a stop or mode request ends in the requested mode with nothing arming, whatever other threads do between its two writes |
| PolicyOutcomes.ModeMoves | application/backend/src/runtime/action_source.py:185-462 | in every run the follower's mode is written by four things only: the current arm ending well, a request being carried out, the leader being given up, and a policy that raises; and to what |
| PolicyOutcomes.RaisingPolicyIsDropped | application/backend/src/runtime/action_source.py:185-221 | a policy that raises leaves the follower in hold, stays attached and is no longer recorded as loaded |
| PolicyOutcomes.RaisedModelIsRebuilt | application/backend/src/runtime/action_source.py:203-267 | in every run no load is skipped after a policy raised until a source is attached again |
| PolicyOutcomes.FailureIsReportedOnce | application/backend/src/runtime/action_source.py:203-221 | in every run two reported policy failures have an arm or an attach between them |
| PolicySafety.SourcesAreConserved | application/backend/src/runtime/policy_loader.py:109-143 | every source ever built is at each point in exactly one place: one loader, attached, one teardown caller, or one entry of the disconnect log |
| PolicySafety.DisconnectedOnce | application/backend/src/runtime/action_source.py:147-178 | no source is disconnected twice and none is disconnected while attached |
| PolicySafety.QuiescentSourcesAreReleased | application/backend/src/runtime/policy_loader.py:109-143 | when no thread is left, exactly the sources that are not attached have been disconnected |
| PolicySafety.AttachedIsNewest | application/backend/src/runtime/action_source.py:159-178 | the attached generation never decreases, and the attached source is the one built for it, in whatever order loads finish |
| PolicySafety.SkippedLoadFindsItsModel | application/backend/src/runtime/action_source.py:236-267 | a skipped load changes nothing and the attached source is the requested model |
| PolicyOutcomes.SkipMeansSameRequest | application/backend/src/runtime/action_source.py:236-255 | in every run a load is skipped only if it is not forced and the request that built the attached source had the same model id, the same backend and the same device |
| PolicySkip.SkipIsDurableIff | application/backend/src/runtime/policy_loader.py:138-147 | the model a skipped load found stays attached, by whichever source, through every run without a new request or teardown exactly when every loader that can still attach at the skip loads that model |
| PolicySkip.SourceStaysIff | application/backend/src/runtime/policy_loader.py:138-147 | the attached source itself stays through every such run exactly when no loader can still attach |
| PolicySkip.SkipCanBeUndone | application/backend/src/runtime/policy_loader.py:138-143 | a run in which the last request, for one model, is skipped and another model ends attached |
| PolicySkip.UnpublishedNeedsLateAttach | application/backend/src/runtime/action_source.py:236-267 | a skip finds its model recorded but not marked loaded only after an attach fell between the clearing of the identity and the clearing of the loaded flag |
| PolicySkip.LateAttachUnpublishes | application/backend/src/runtime/action_source.py:236-267 | every attach in that window leads to such a skip |
| Teleoperation.TeleoperationIsBounded | application/backend/src/runtime/action_source.py:421-462 | in every run teleop mode implies a leader whose reads are enabled; they are enabled exactly until the limit of readings in a row was in vain; accepted timestamps strictly increase; and fewer than the limit of ticks in a row replay an old pose |
| Teleoperation.LeaderIsFollowed | application/backend/src/runtime/action_source.py:421-447 | in every run the leader drives exactly the ticks that begin in teleop with the limit not reached and no arm ended before; a fresh reading's joints reach the follower and are remembered, and any other such tick commands the joints of the last observation accepted since the disconnect |
| Teleoperation.OtherwisePolicyOrHold | application/backend/src/runtime/action_source.py:113-132 | in every run a tick the leader does not drive commands the policy's action in policy mode while it acts, and otherwise a hold pose |
| Teleoperation.HoldStaysPut | application/backend/src/runtime/action_source.py:293-322 | in every run a request for hold keeps the follower at the pose it had then, on every tick until something takes it out of hold |
| Teleoperation.LimitLeavesTeleop | application/backend/src/runtime/action_source.py:113-132 | in every run, with an arm thread allowed to end inside a tick, the tick that reaches the limit leaves teleop and does not command the leader's pose; it commands the current pose unless an arm that ended before the policy was asked makes the policy act, and ends in hold unless an arm ended inside; teleop is not entered again before a disconnect |
| ActionSource.StudioActionSource.SetPolicy | application/backend/src/runtime/action_source.py:159-178 | the new shared fields, and which source the caller must disconnect |
| ActionSource.StudioActionSource.ArmPolicy | application/backend/src/runtime/action_source.py:324-371 | a failed reset changes nothing but the error path; otherwise a new generation is armed, or policy mode entered at once without a snapshot |
| ActionSource.StudioActionSource.FinishWarmup | application/backend/src/runtime/action_source.py:386-411 | the end of a warm-up puts the follower in policy mode exactly for the current arm of the attached policy, and otherwise leaves the mode alone |
| ActionSource.StudioActionSource.HandleLoadModel | application/backend/src/runtime/action_source.py:236-267 | skips, or clears identity, arm and loaded flag and requests the next generation |
| ActionSource.StudioActionSource.HandleStopTask | application/backend/src/runtime/action_source.py:274-280 | the arm is revoked, and a follower not in hold goes to hold at the current pose |
| ActionSource.StudioActionSource.HandleSetFollowerSource | application/backend/src/runtime/action_source.py:293-322 | teleop is refused without a leader whose reads are enabled; an accepted request revokes the arm and sets the mode and hold pose |
| ActionSource.StudioActionSource.ShutdownPolicy | application/backend/src/runtime/action_source.py:147-157 | the loader is overtaken, the arm revoked, the policy and its identity forgotten, and the source to disconnect returned |
| ActionSource.StudioActionSource.ReadLeaderArm | application/backend/src/runtime/action_source.py:421-462 | a reading is accepted, replayed or counts as a failure, as the pure leader model says |
| ActionSource.StudioActionSource.Update | application/backend/src/runtime/action_source.py:113-132 | one control tick: the action and the whole new state, in each mode and when the policy raises |
| PolicySafety.OvertakenLoadNeverAttaches | application/backend/src/runtime/policy_loader.py:84-147 | a load that a newer request or a teardown overtakes before its staleness check never attaches its source in any run; only one already past the check still can |
| TrainerSafety.ReservationsAreExclusive | application/backend/src/trainer/queue_worker.py:88-186 | at every await point of every run, restarts included: active jobs, reserved devices and RUNNING rows are the same set of at most `max_concurrent_jobs` jobs; no two hold one device; a job with no fixed device runs alone |
| TrainerOutcomes.NoTwoJobsOnOneGpu | application/backend/src/trainer/queue_worker.py:88-139 | in every run, in terms of the requests: no two active jobs use the same cuda or xpu GPU, a missing index being GPU 0 |
| TrainerOutcomes.AnyGpuRunsAlone | application/backend/src/trainer/queue_worker.py:94-102 | in every run a job whose request names neither cuda nor xpu is the only active one |
| TrainerOutcomes.BlockedIff | application/backend/src/trainer/queue_worker.py:94-106 | a queued job is blocked exactly when a running job uses its GPU, either of the two may use any GPU, or telemetry shows its GPU, for one with no GPU of its own any GPU, as busy; a running job on another GPU never blocks it |
| TrainerOutcomes.DispatchStartsNext | application/backend/src/trainer/queue_worker.py:88-139 | a dispatch starts exactly the earliest created queued job that is not blocked, from progress 0, and changes no other row but for waiting messages |
| TrainerOutcomes.ShownReasonIsTrue | application/backend/src/trainer/queue_worker.py:107-117 | in every run a scan leaves every job that stays queued with its true reason: its own GPU, a running job, or a busy GPU |
| TrainerOutcomes.JobLife | application/backend/src/trainer/queue_worker.py:73-186 | in every run, how each step moves each status: awaiting to queued by the dataset, queued to running exactly by the dispatch whose turn it is, running to an end by its training or a restart, waiting to canceled by a cancel; only ended jobs are deleted |
| TrainerOutcomes.RequestIsKept | application/backend/src/trainer/store.py:86-97 | in every run a job's request and creation time are those it was submitted with |
| TrainerOutcomes.TokenIsHandedOver | application/backend/src/trainer/store.py:69-84 | in every run a job's task finds a token exactly when the job was submitted with one and the process has not restarted since, and the cache no longer has it |
| TrainerOutcomes.CompletesIff | application/backend/src/trainer/queue_worker.py:141-186 | in every run a job whose training returns is COMPLETED exactly when it produced an archive and nobody asked it to stop since it started; FAILED exactly for an error under the same condition; otherwise CANCELED |
| TrainerOutcomes.FinishRecords | application/backend/src/trainer/queue_worker.py:163-186 | in every run a COMPLETED row has the archive's path and progress 100, an error its text, and device, slot and flag are released |
| TrainerOutcomes.CancelActs | application/backend/src/trainer/queue_worker.py:77-86 | a cancel ends a waiting job at once and drops its token, flags a running one, and leaves an ended one alone |
| TrainerOutcomes.ProgressIsBounded | application/backend/src/trainer/store.py:135-163 | in every run progress is at most 100 |
| TrainerOutcomes.RestartFailsInterrupted | application/backend/src/trainer/store.py:172-183 | in every run a restart fails exactly the running and the awaiting jobs, each with its own message, and leaves every other row and the order as they were |
| TrainerSafety.TerminalRowsAreFinal | application/backend/src/trainer/store.py:135-170 | COMPLETED implies progress 100 and an artifact, and no terminal job still has a cached secret |
| TrainerSafety.TerminalNeverChanges | application/backend/src/trainer/queue_worker.py:141-186 | a terminal status never changes in any run until the row is deleted, and then the row stays absent |
| TrainerSafety.DeletedNeverComesBack | application/backend/src/trainer/store.py:165-170 | a deleted job id never comes back, restarts included |
| TrainerSafety.CanceledJobNeverCompletes | application/backend/src/trainer/queue_worker.py:77-86 | once cancel is requested on a live job it never ends COMPLETED; it ends CANCELED unless the process restarts first |
| TrainerSafety.RequestIsNeverMissing | application/backend/src/trainer/queue_worker.py:141-150 | the missing-request branch is unreachable |
| TrainerSafety.QueueIsSubmissionOrder | application/backend/src/trainer/store.py:126-133 | the queue lists exactly the queued jobs, once each, in submission order |
| TrainerSafety.FirstFreeIsEarliest | application/backend/src/trainer/queue_worker.py:88-120 | a scan's pick is the earliest runnable job, and no pick means every queued job is blocked |
| TrainerSafety.PickIsQueued | application/backend/src/trainer/queue_worker.py:122-139 | the pick of a scan is still queued, so the `continue` of the dispatch loop is unreachable |
| QueueManager.DispatchOutcome | application/backend/src/trainer/queue_worker.py:122-139 | one round of the inner loop starts a job and fills one slot, or leaves every queued job blocked |
| QueueManager.EmptyScanMeansBlocked | application/backend/src/trainer/queue_worker.py:88-120 | a scan that finds nothing leaves every queued job blocked, with a waiting reason that is true of it: its device, the slot or a GPU |
| QueueManager.JobStore.Create | application/backend/src/trainer/store.py:86-97 | the new row, its place in the order and its id |
| QueueManager.JobStore.MarkDatasetReady | application/backend/src/trainer/store.py:99-106 | only an awaiting job becomes queued |
| QueueManager.JobStore.Queued | application/backend/src/trainer/store.py:126-133 | the loop returns the specified queue |
| QueueManager.JobStore.Update | application/backend/src/trainer/store.py:135-163 | exactly the given columns of one row change, and a missing row changes nothing |
| QueueManager.JobStore.Delete | application/backend/src/trainer/store.py:165-170 | the row, its place and its secret are gone |
| QueueManager.JobStore.ResetOrphans | application/backend/src/trainer/store.py:172-183 | the two conditional updates, one after the other, fail exactly the RUNNING and the awaiting rows, each with its own reason, and leave no such row |
| QueueManager.QueueManager.RequestCancelOf | application/backend/src/trainer/queue_worker.py:77-86 | a queued or awaiting job is canceled at once, any other is flagged |
| QueueManager.QueueManager.NextRunnable | application/backend/src/trainer/queue_worker.py:88-120 | the scan returns the earliest job that is not blocked and writes every waiting reason |
| QueueManager.QueueManager.FillSlots | application/backend/src/trainer/queue_worker.py:122-139 | the inner dispatch loop terminates with every slot full or every queued job blocked |
| QueueManager.QueueManager.BeginJob | application/backend/src/trainer/queue_worker.py:141-150 | the request and the cached token are taken, or the slot is released when the row is gone |
| QueueManager.QueueManager.FinishJob | application/backend/src/trainer/queue_worker.py:163-186 | the final status and the release of device, slot and cancel flag |
| ContentRange.ParseIff | application/backend/src/trainer/api.py:47 | a header is accepted exactly when it matches the grammar and its bounds are valid by section 14.4 of RFC 9110, and the range is the three numbers written in it |
| ContentRange.ParseOfHeader | application/backend/src/trainer/api.py:142-160 | a rendered range reads back, or is refused for its bounds |
| Upload.StagedIsPrefix | application/backend/src/trainer/api.py:124-140 | through drops, short and long bodies, retries, cancellation and restarts the staged file is a prefix of the client's archive |
| Upload.RangedExtractionIsComplete | application/backend/src/trainer/api.py:225-243 | a ranged upload is extracted only with exactly its total staged; with the true total that is the whole archive |
| Upload.AcceptedOffsetIsStaged | application/backend/src/trainer/api.py:225-259 | the offset in an accepting reply is what is staged, or the upload has been extracted |
| Upload.RangedBegin | application/backend/src/trainer/api.py:209-232 | what a ranged request meets first: wrong job state, bad bounds, wrong offset, no room, or acceptance |
| Upload.ResumableIff | application/backend/src/trainer/api.py:142-160 | a ranged upload with the true total can go on exactly while bytes are missing |
| Upload.BrokenExtractionBlocksResume | application/backend/src/trainer/api.py:243-254 | a run that leaves the whole archive staged, the job awaiting and no ranged request acceptable |
| Upload.QueuedMeansExtracted | application/backend/src/trainer/api.py:243-259 | a job is queued only by a successful extraction of the staged file |
| Upload.RequestOutcome | application/backend/src/trainer/api.py:209-232 | for every request: a refused one leaves what is staged alone unless there is no room, an accepted ranged one goes on from it, an unranged one starts over |
| Upload.ExtractionOutcome | application/backend/src/trainer/api.py:243-259 | in every run: a good extraction queues an awaiting job and leaves nothing on disk for an ended one, a bad archive or a full disk leaves nothing to resume, any other failure keeps every staged byte; each with its own code |
| Upload.UploadLife | application/backend/src/trainer/api.py:243-259 | in every run an awaiting job is queued by a good extraction, canceled by a cancel and failed by a restart, and by nothing else |
| UploadClient.UploadedMeans | application/backend/src/services/training_backends/remote.py:267-306 | what the uploader knows when it reports success: after a reply, its archive was extracted; after asking, only that every byte is staged |
| UploadClient.StuckForGood | application/backend/src/services/training_backends/remote.py:267-306 | a job whose uploader has reported success or failure while nobody extracts is never queued |
| UploadClient.ReportedCanBeQueuedIff | application/backend/src/services/training_backends/remote.py:267-320 | after a report of success or failure, with the job awaiting its dataset, the job can be queued exactly while the trainer is extracting |
| UploadClient.FailureIsWrongIff | application/backend/src/services/training_backends/remote.py:267-320 | when the uploader gives up, its report of failure is already wrong exactly when a good extraction has happened and no cancel has, and then the reply that said so was lost |
| UploadClient.GivesUpIff | application/backend/src/services/training_backends/remote.py:267-320 | in every run the uploader sends at most four times, and gives up exactly when asking fails, the job no longer awaits its dataset, or its fourth attempt fails |
| UploadClient.SuccessCanBeEmpty | application/backend/src/services/training_backends/remote.py:267-306 | a run in which the uploader reports success and the job awaits its dataset for good |
| UploadClient.FailureCanBeSuccess | application/backend/src/services/training_backends/remote.py:308-320 | a run in which the dataset is extracted and queued but a lost reply makes the uploader report failure |
| DatasetUpload.DatasetUpload.StreamBody | application/backend/src/trainer/api.py:124-131 | the loop appends or replaces exactly the body and returns its length |
| DatasetUpload.DatasetUpload.ParseUploadRange | application/backend/src/trainer/api.py:142-160 | the declared range, or the reply that refuses it |
| DatasetUpload.DatasetUpload.UploadDataset | application/backend/src/trainer/api.py:209-259 | one request without interference has the reply and the state of the protocol's steps |
| TargetKeys.ColonPrefixIsSegmentPrefix | application/backend/src/core/scheduler.py:95-99 | the string test `startswith(key + ":")` is proper prefix of colon-separated segments |
| TargetKeys.KeysConflictIff | application/backend/src/services/training_targets/remote.py:69-75 | which training payloads conflict: the same slot, or one remote job holding a whole trainer the other uses |
| TargetKeys.BlocksIsSymmetric | application/backend/src/core/scheduler.py:95-99 | conflict does not depend on which of the two keys is already reserved |
| SchedulerTheorems.ReservationsAreExclusive | application/backend/src/core/scheduler.py:101-133 | in every reachable state reserved targets are pairwise without conflict and no job is assigned to two processes, even while its row is PENDING |
| SchedulerOutcomes.SubmissionIsKept | application/backend/src/services/job_service.py:54-72 | in every run a submitted job is PENDING, and its kind, target and key stay those of its payload |
| SchedulerOutcomes.ProcessesUseOtherSlots | application/backend/src/core/scheduler.py:101-133 | in every run the payloads of two processes never ask for the same slot: the local machine, a batch queue, a remote GPU, or a remote trainer of which either may take any GPU |
| SchedulerOutcomes.OneImportAtATime | application/backend/src/core/scheduler.py:119-133 | in every run at most one process imports a dataset |
| SchedulerOutcomes.PassLooksAtAll | application/backend/src/core/scheduler.py:101-109 | in every run a scheduling pass that ends has looked at every training job that was PENDING when it began |
| SchedulerOutcomes.LaunchOutcome | application/backend/src/core/scheduler.py:101-133 | in every run a job looked at gets its target exactly when no process holds a conflicting one and no stop was requested, with its own cancel event; a failed start keeps the reservation with nothing running and ends the pass |
| SchedulerOutcomes.ImportClaimOutcome | application/backend/src/core/scheduler.py:109-113 | in every run an import is claimed, from PENDING to RUNNING, while the import slot is free and no stop is requested |
| SchedulerOutcomes.ImportLaunchOutcome | application/backend/src/core/scheduler.py:119-133 | in every run a claimed import gets the slot, still free, unless a stop was requested since |
| SchedulerOutcomes.NothingStartsAfterStop | application/backend/src/core/scheduler.py:119-133 | in every run no process is started after a stop is requested until the next restart |
| SchedulerOutcomes.WorkerWrites | application/backend/src/repositories/job_repo.py:60-84 | in every run a starting worker takes exactly a PENDING row, and an ending one writes the status it ends with, each to its own row only |
| SchedulerOutcomes.WorkerRecords | application/backend/src/workers/training_worker.py:230-244 | in every run a worker records the remote id it was given, and an import its status, in its own row only; progress changes nothing and the first write only the flag |
| SchedulerOutcomes.ReapOutcome | application/backend/src/core/scheduler.py:135-169 | in every run, when a reap ends: its target is free; the job, if it was left PENDING with nothing to reattach to and no stop was requested, is FAILED; and its cancel event is kept exactly for a job that reattaches |
| SchedulerOutcomes.CleaningOutcome | application/backend/src/core/scheduler.py:171-177 | in every run a cleaning forgets exactly the cancel events of jobs that had no process when it began and were neither PENDING nor RUNNING when it read them |
| SchedulerTheorems.InterruptIsNotLost | application/backend/src/core/scheduler.py:115-133 | after an interrupt has signalled a training job, the job is terminal or keeps its raised event at every later point before a restart or shutdown, unless it is an abandoned run that recovery will fail and no worker can claim |
| SchedulerTheorems.LaterWorkerSeesInterrupt | application/backend/src/core/scheduler.py:115-133 | every worker that later claims that job holds the raised event |
| SchedulerInterrupts.InterruptTakesEffect | application/backend/src/api/job.py:66-97 | in every run without a restart, a request that found a live training job ends in one step that moves the PENDING row without a remote execution to CANCELED, leaves the job a raised event, or finds its batch job deleted; claims, exits, requeues, recovery and other requests end it no other way |
| SchedulerInterrupts.CancelTakesEffectIff | application/backend/src/repositories/job_repo.py:60-84 | in every run a request's conditional cancel takes effect exactly on a PENDING row of which nothing runs remotely; otherwise the request goes on to the event |
| SchedulerInterrupts.TrainingDecision | application/backend/src/api/job.py:66-97 | in every run an interrupt of an ended training job changes nothing; of a live one it writes no status at once, and skips the conditional cancel exactly for a batch job already submitted or running |
| SchedulerInterrupts.ImportIsCanceledAtOnce | application/backend/src/api/job.py:66-97 | in every run an interrupt of an import it read as live writes CANCELED to that row, and one that had ended is left alone |
| SchedulerOutcomes.FlaggedIff | application/backend/src/api/job.py:66-97 | in every run a job is flagged for batch cancellation exactly when some request decided about it as a live batch job and no worker has since put back the row it had claimed before that; restarts included |
| SchedulerOutcomes.FlagCanBeErased | application/backend/src/workers/training_worker.py:132-141 | a run in which a running batch job is flagged and its worker's first write, which merges the row as it was claimed, erases the flag, while the request goes on to raise the job's event |
| SchedulerTheorems.OnlyInterruptsCancel | application/backend/src/core/scheduler.py:115-133 | a worker's cancel event is raised only by an interrupt for its own job |
| SchedulerTheorems.CanceledIsNeverClaimed | application/backend/src/repositories/job_repo.py:60-84 | a job an interrupt canceled while PENDING is never PENDING or RUNNING again, restarts included, so no worker claims it |
| SchedulerTheorems.RecoveryLeavesNoOrphan | application/backend/src/core/scheduler.py:179-195 | when recovery ends every RUNNING training or import job belongs to a reserved process |
| SchedulerRecovery.RecoveryOutcome | application/backend/src/services/training_service.py:75-123 | in every run a training job that is RUNNING without a process when a recovery pass begins is, when that pass ends, PENDING under its remote id if it trains remotely and has one, and FAILED, unless deleted since, if not, whatever requests and workers do meanwhile |
| SchedulerRecovery.ImportRecoveryOutcome | application/backend/src/core/scheduler.py:188-195 | in every run an import that is RUNNING without a process when the pass lists imports is FAILED when it ends; only if a request interrupted it meanwhile may it be CANCELED |
| SchedulerRecovery.RecoverStepWrites | application/backend/src/services/training_service.py:75-123 | in every run the step that recovers a training job finds it RUNNING without a process and writes exactly that status, and no other row |
| SchedulerRecovery.RecoverImportWrites | application/backend/src/core/scheduler.py:188-195 | in every run the step that recovers an import writes FAILED to an import without a process, and no other row |
| SchedulerRecovery.PassIsLoop | application/backend/src/services/training_service.py:75-123 | an uninterrupted pass of recovery steps over the listed jobs writes what the loop over them writes |
| SchedulerTheorems.RecoveringTwiceIsIdle | application/backend/src/core/scheduler.py:179-195 | a recovery pass right after another finds nothing to change |
| SchedulerTheorems.SurvivorIsNeverFailed | application/backend/src/services/training_service.py:75-148 | no step of the scheduler fails a live remote job with a recorded remote id, and requeuing keeps that id |
| SchedulerRemoteId.RemoteIdIsStable | application/backend/src/workers/training_worker.py:230-244 | the write is unconditional, yet once a remote id is recorded every later state of the run that has the row has that id, through requeues, new workers, crashes and restarts |
| SchedulerRemoteId.RecordFindsNone | application/backend/src/workers/training_worker.py:58-68 | a worker that writes a remote id finds none in the row: it claimed a row without one, and submits once |
| SchedulerTheorems.CleanShutdownLeavesNothingRunning | application/backend/src/core/scheduler.py:197-211 | after a clean shutdown no process is left and no job is RUNNING |
| SchedulerTheorems.TerminalChangesIff | application/backend/src/core/scheduler.py:135-169 | a terminal training row changes status exactly at the reaper's late FAILED write over a cancel |
| SchedulerTheorems.LateReapHappens | application/backend/src/core/scheduler.py:147-162 | a run in which that write happens: an accepted cancel ends FAILED |
| SchedulerCancel.CancelIsFinalIff | application/backend/src/core/scheduler.py:147-162 | at an accepted cancel of a queued job, in any run, the row stays CANCELED in every continuation exactly when the reaper is not already about to fail the job |
| SchedulerObject.PassAssigns | application/backend/src/core/scheduler.py:101-113 | a scheduling pass hands out targets in submission order |
| SchedulerObject.AssignIsGreedy | application/backend/src/core/scheduler.py:101-113 | a pending job gets its target exactly when no older process and no earlier job of the pass holds a conflicting one |
| SchedulerObject.RecoveryContents | application/backend/src/services/training_service.py:75-123 | recovery requeues exactly the listed jobs that can reattach, fails exactly the other listed jobs, and changes no other row |
| SchedulerObject.JobTable.TransitionPendingTrainJob | application/backend/src/repositories/job_repo.py:60-84 | the claim or cancel happens exactly when the row is a PENDING training job, and for a cancel one without a remote execution; nothing else changes |
| SchedulerObject.JobTable.UpdateStatus | application/backend/src/services/job_service.py:154-181 | the status of one existing row |
| SchedulerObject.JobTable.AbortOrphanJobs | application/backend/src/services/training_service.py:75-123 | the loop's updates of the whole table |
| SchedulerObject.Scheduler.CancelJob | application/backend/src/core/scheduler.py:115-117 | the job's event exists, is kept and is set |
| SchedulerObject.Scheduler.StartTraining | application/backend/src/core/scheduler.py:119-133 | reservation, worker event, and what a failed start or a stop leaves |
| SchedulerObject.Scheduler.ScheduleJobs | application/backend/src/core/scheduler.py:101-109 | the loop over the pending jobs, ended by a start that fails |
| SchedulerObject.Scheduler.ShutdownProcesses | application/backend/src/core/scheduler.py:197-211 | every process and every event is forgotten |
| CommandTheorems.JobsRunOnceInOrder | application/backend/src/runtime/command_thread.py:41-56 | read off the run itself: jobs begin one at a time in submission order, and a worker that has exited began every accepted job exactly once |
| CommandTheorems.DrainedForGood | application/backend/src/runtime/session.py:201-210 | once a shutdown returned True no job runs, waits or is accepted again, so teardown's finalize overlaps no queued job |
| CommandTheorems.DrainShrinks | application/backend/src/runtime/command_thread.py:95-119 | after the close every worker step shortens the work left and no other step lengthens it |
| CommandTheorems.WorkerIsNeverStuck | application/backend/src/runtime/command_thread.py:95-119 | after the close the worker has a step to make until it exits with everything run |
| CommandTheorems.WaitReturnsOwnResult | application/backend/src/runtime/command_thread.py:58-68 | as long as no job was accepted under the id while one was outstanding, a woken wait returns its own job's acknowledgement, and raises exactly when another wait has collected it; other ids do not matter |
| CommandTheorems.ResultTellsOutcome | application/backend/src/runtime/command_thread.py:95-119 | in every run under the same condition, what a woken wait finds names its request, is ok exactly when the function of its own job returned, has an error exactly when it raised, and that is the raised text, or the job's name and " failed" when the text is empty; jobs and outcomes are read off the run itself |
| CommandTheorems.UnfinishedJobsWakeNobody | application/backend/src/runtime/command_thread.py:58-65 | under the same condition a wait ends before its job only by its timeout |
| CommandIds.SharedIdsMixIff | application/backend/src/runtime/command_thread.py:49-56 | a submission under an id used one at a time so far can be followed by a wait that returns another job's acknowledgement exactly when it is accepted while an earlier job under the id has no stored result or a wait on the id is in progress |
| CommandIds.UnregisteredIsFree | application/backend/src/runtime/command_thread.py:53-56 | an unfinished earlier job always shows as a registered event, so a submitter that finds none and no wait is safe |
| CommandIds.LeftoverResultIsHarmless | application/backend/src/runtime/command_thread.py:113-118 | an uncollected result alone cannot be mixed up with the next job's |
| CommandWorker.StoreAllContents | application/backend/src/runtime/command_thread.py:113-118 | after the loop every id finds the acknowledgement of the last job under it, and other results are untouched |
| CommandWorker.StoredTellsOutcome | application/backend/src/runtime/command_thread.py:104-118 | after any number of jobs the result under an id tells how the last of them under it ended: returned or raised, and with what text |
| CommandWorker.CommandWorker.Submit | application/backend/src/runtime/command_thread.py:41-56 | refused exactly when closed; otherwise queued last with a new event |
| CommandWorker.CommandWorker.CollectResult | application/backend/src/runtime/command_thread.py:66-68 | the acknowledgement is handed out once, the event forgotten |
| CommandWorker.CommandWorker.BeginShutdown | application/backend/src/runtime/command_thread.py:79-84 | one mark, last in the queue, and only if a thread exists |
| CommandWorker.CommandWorker.RunToMark | application/backend/src/runtime/command_thread.py:95-119 | everything before the mark runs once in order, its results are stored, nothing after the mark is touched |
| SetupExclusion.SetupExcludesJobs | application/backend/src/services/remote_trainer_service.py:439-547 | in every run with the job scheduler: while an install or reboot runs for a trainer it is the only one and no PENDING or RUNNING training job names the trainer |
| SetupExclusion.SubmissionAdmittedIff | application/backend/src/services/remote_trainer_service.py:317-332 | in every run a submission is let in exactly when no setup is registered for its trainer and its failure is none of `reboot_required`, `relogin_required`, `reboot_blocked_active_containers`, `nvidia_driver_unavailable` |
| SetupExclusion.SetupAcceptedIff | application/backend/src/services/remote_trainer_service.py:537-543 | in every run a setup passes its first checks exactly over SSH with none registered, a reboot only after `reboot_required`, `reboot_blocked_active_containers` or `nvidia_driver_unavailable` |
| SetupExclusion.SetupApprovedIff | application/backend/src/services/remote_trainer_service.py:302-313 | in every run it then goes ahead exactly when no PENDING or RUNNING job names its trainer |
| SetupExclusion.SetupBegins | application/backend/src/services/remote_trainer_service.py:475-477 | in every run its task is then registered as the trainer's only one; an install forgets the trainer's failure, a reboot and other trainers keep theirs |
| SetupExclusion.EndedSetupFreesTrainer | application/backend/src/services/remote_trainer_service.py:463-468 | the end of a task frees its trainer, and every registration is of a task in progress |
| SetupExclusion.NoJobComesBack | application/backend/src/services/job_service.py:154-181 | no scheduler, worker or interrupt step brings a finished or deleted training job back to PENDING or RUNNING |
| SetupObject.SetupRegistry.AllowJobSubmission | application/backend/src/services/remote_trainer_service.py:317-332 | on the registry's own fields: admitted exactly without a registered setup and without one of the four failures that need the user |
| SetupObject.SetupRegistry.RequestSetup | application/backend/src/services/remote_trainer_service.py:470-473 | on the registry's own fields: accepted exactly for an SSH trainer without a registered setup, and for a reboot only after one of the three failures that ask for one |
| SetupObject.SetupRegistry.StartTask | application/backend/src/services/remote_trainer_service.py:475-477 | task and registration appear together; an install clears the failure |
| SetupObject.SetupRegistry.EndTask | application/backend/src/services/remote_trainer_service.py:532-535 | a task removes its own registration only |
| CameraClaims.HoldersAlwaysAgree | application/backend/src/services/camera_claims.py:54-91 | in every run of claims and releases with one holder a batch, all holders of a camera have equal settings and no entry is empty |
| CameraClaims.ConflictIff | application/backend/src/services/camera_claims.py:62-72 | a batch is rejected exactly when some camera of it is pinned with other settings |
| CameraClaims.ClaimOutcome | application/backend/src/services/camera_claims.py:54-79 | a rejected batch changes nothing and names the first claim that its camera's first holder contradicts, with both settings; an accepted one counts one pin for its holder alone; an empty one returns 0 |
| CameraClaims.FirstHolderStays | application/backend/src/services/camera_claims.py:73-75 | whoever holds a camera first stays first whatever is claimed after |
| CameraClaims.AcceptedKeepsAgreementIff | application/backend/src/services/camera_claims.py:73-75 | an accepted batch keeps all holders in agreement exactly when its own final claims of one camera agree |
| CameraClaims.PutAllContents | application/backend/src/services/camera_claims.py:73-75 | who holds a camera after a batch, and in one claim each |
| CameraClaims.ReleaseContents | application/backend/src/services/camera_claims.py:81-91 | a current release removes all and only the holder's claims, a stale one nothing |
| CameraClaims.ReleaseIsCurrentIff | application/backend/src/services/camera_claims.py:76-84 | a release with the generation a claim returned takes effect exactly when its holder has not pinned again since |
| CameraClaims.CameraClaimRegistry.Claim | application/backend/src/services/camera_claims.py:54-79 | all cameras pinned and the generation returned, or nothing changed and the conflict named |
| CameraClaims.CameraClaimRegistry.Release | application/backend/src/services/camera_claims.py:81-91 | the loops remove the holder and then the empty entries |
| CameraClaims.CameraClaimRegistry.HolderOf | application/backend/src/services/camera_claims.py:93-98 | in a registry whose holders agree, the settings returned are those of every holder, and nothing is returned exactly for a camera nobody holds |
| EventSink.NothingElseIsLost | application/backend/src/runtime/contract.py:181-198 | over every run, delivered and queued events are the emitted ones in order less some observations, at most one observation is queued, and the newest one emitted is never dropped |
| EventSink.QueuedObservationIsNewest | application/backend/src/runtime/contract.py:188-192 | a queued observation is the newest one emitted |
| EventSink.ThinsKeepsOthers | application/backend/src/runtime/contract.py:188-192 | dropping observations keeps every other event once and in order |
| EventSink.QueueEventSink.Emit | application/backend/src/runtime/contract.py:188-192 | the loop replaces queued observations by the new one |
| EventSink.QueueEventSink.GetNowait | application/backend/src/runtime/contract.py:194-198 | the oldest event, or the empty signal |
| SshText.ParseEquals | application/backend/src/services/ssh_config_reader.py:20-21 | for every line with a keyword and an equals sign: with no space before the sign the words of the rest are the arguments; with any space before it the first argument begins with the sign |
| SshText.ParseSpaced | application/backend/src/services/ssh_config_reader.py:46-63 | an indented `Keyword value` line gives the keyword and the value's words, or nothing when they cannot be split |
| SshText.FirstWordIff | application/backend/src/services/ssh_config_reader.py:59-63 | a value reads back as its own first word exactly when it has no blank, quote, backslash or comment mark |
| SshSections.SplitWords | application/backend/src/services/ssh_config_reader.py:59-63 | plain words separated by blanks are split at the blanks, and what follows them is split as if it stood alone |
| SshSections.CommentIsCut | application/backend/src/services/ssh_config_reader.py:59-63 | a comment mark after a blank hides the rest of the line, quotes included |
| SshSections.CommentEndsWord | application/backend/src/services/ssh_config_reader.py:59-63 | a comment mark right after a word ends the word and the line |
| SshSections.QuotedIsOneWord | application/backend/src/services/ssh_config_reader.py:59-63 | a quoted text is one word, blanks and marks included and even if empty, and a quote left open makes the line unreadable |
| SshSections.BackslashTakesOne | application/backend/src/services/ssh_config_reader.py:59-63 | a backslash takes the next character as it is; in double quotes it goes only before another backslash or a double quote |
| SshSections.SignedNumber | application/backend/src/services/ssh_config_reader.py:89-93 | digits with a sign and spaces around them are the number they say |
| SshSections.HostLineIsBlock | application/backend/src/services/ssh_config_reader.py:78-142 | every Host line of a file is one block, in order of the lines, with the line's patterns and, for each field, what the last directive for it says before the next Host line, whatever is included in between; an unreadable port and any other keyword change nothing |
| SshSections.IncludedInOrder | application/backend/src/services/ssh_config_reader.py:66-75 | an Include reads what its arguments name in the order of the arguments |
| SshText.LinesAppend | application/backend/src/services/ssh_config_reader.py:119 | the lines of a text cut at a line boundary are the lines of its parts |
| SshConfigReader.IterBlocks | application/backend/src/services/ssh_config_reader.py:98-142 | the recursive reading of a config, which ends on every include graph, with its blocks, visited files and parse order |
| SshIncludes.EachFileOnce | application/backend/src/services/ssh_config_reader.py:105-112 | no file is parsed twice, on cyclic include graphs too |
| SshIncludes.ParsedIsReachable | application/backend/src/services/ssh_config_reader.py:98-142 | every file parsed is reachable through Include |
| SshIncludes.ParsedIsClosed | application/backend/src/services/ssh_config_reader.py:129-136 | every existing file that a parsed one includes is parsed |
| SshIncludes.ParsedIffReachable | application/backend/src/services/ssh_config_reader.py:98-142 | provided that what a file includes does not depend on the name it is reached by, the files parsed are exactly the existing ones reachable through Include |
| SshAliases.ResolveIsLastEntryWins | application/backend/src/services/ssh_config_reader.py:187-225 | each field of a resolved alias is set by the last entry that names it literally and sets that field; it is found exactly when some entry names it |
| SshSections.FoundMeans | application/backend/src/services/ssh_config_reader.py:187-225 | an alias is found exactly when some block lists it and it is neither negated nor has a wildcard; it has the last host name, port and user of the blocks that list it, and itself for a missing or empty host name |
| SshAliases.ListingAgreesWithResolution | application/backend/src/services/ssh_config_reader.py:145-225 | for every block list the listing holds each resolvable alias once with what resolving returns, and fails exactly when some alias is rejected for its port |
| SshAliases.ListingFailsIff | application/backend/src/services/ssh_config_reader.py:176-184 | the whole listing fails exactly when, for some alias, the last entry that names it and sets a port sets one out of range |
| SshAliases.OneBadPortHidesAll | application/backend/src/services/ssh_config_reader.py:176-184 | a new alias with such a port makes the listing fail although every other alias still resolves as before |
| SshAliases.FirstSeenOrder | application/backend/src/services/ssh_config_reader.py:161-168 | aliases are listed in the order of first appearance |
| SshAliases.ListHostAliases | application/backend/src/services/ssh_config_reader.py:145-184 | the loops over blocks and patterns compute the specified listing |
| SshAliases.ResolveHostAlias | application/backend/src/services/ssh_config_reader.py:187-225 | the loops compute the specified resolution |
| SshConfigWriter.AppendAddsOneBlock | application/backend/src/services/ssh_config_writer.py:65-71 | after an append the config has its old blocks, includes and all, and then the entry's block |
| SshSections.EntryText | application/backend/src/services/ssh_config_writer.py:36-47 | the exact text of an entry: user line only for a named user, key line only with the line that keeps other keys from being offered |
| SshConfigWriter.AppendedAliasReadsBack | application/backend/src/services/ssh_config_writer.py:36-73 | every other alias resolves as before, and the new one resolves to what the writer returned exactly when its values need no quoting |
| SshConfigWriter.SshConfig.AddHostAlias | application/backend/src/services/ssh_config_writer.py:50-73 | duplicate and unlistable configs change nothing; otherwise exactly the entry is appended |
| SshConfigWriter.SshConfig.Rollback | application/backend/src/services/ssh_config_writer.py:127-139 | the file is cut back to its prior size, or removed |
| SshConfigWriter.SshConfig.AddVerified | application/backend/src/services/ssh_config_writer.py:76-124 | when the alias cannot be dialled the config is exactly what it was, contents or absence |

## Left out

- HTTP, websocket and event-stream routing, schemas other than the checks named above, the ORM: plumbing around the modelled operations.
- Training, export, telemetry, cameras and robots: their outcomes are inputs of the steps.
- The fallback action of the control tick after re-arming: the source returns an earlier hold target there, and nothing is claimed about it.
- Dataset-import claims: the source returns the row without checking that its update matched, so imports appear in the scheduler only as far as recovery and the import slot need them.
- Message texts, start and end times and progress of Studio jobs, and duplicate detection at submission.
- The order in which recovery and reaping visit jobs: the transition system allows any order; `SchedulerObject` has the loops in order.
- Late writes by a worker's progress dispatcher after its ten-second join has timed out.
- Dispatch fairness for jobs with no fixed device: other jobs can keep them waiting, so only work conservation is proved.
- File removal by trainer job deletion and by the cleanup after failed jobs.
- Overlapping upload requests for one job: the source does not lock the offset check and the append, so nothing holds for them.
- Numerals of more than 4300 digits, which Python refuses to convert, in a range header.
- Trainer update and deletion, which check for a setup in progress without the setup lock.
- Reboot admission at the moment the task starts: the failure that allows it is read before an await, and a health probe may clear it meanwhile.
- Background launches and the trainer containers they start.
- A camera claim's life beyond the registry: which connection releases it is the session endpoint's choice.
- The in-memory command mailbox, which is a plain queue.
- Letter case and digits outside ASCII in SSH keywords and ports, and the user's home directory in include patterns.
- SshConfigWriter.SshConfig.Rollback: measures the file in characters where the source counts bytes, and assumes nobody else appends between the two.
- CommandWorker.CommandWorker.RunToMark: runs a queue that is already closed; how the loop interleaves with submissions is in the transition system.
- DatasetUpload.DatasetUpload.UploadDataset: serves a request without interference; cancellation and restarts between its awaits are in the transition system.
- SetupObject.SetupRegistry.StartTask: the lock, the running tasks and the job table are specification state, since asyncio's lock is not part of this model.
- SchedulerObject.Scheduler.ScheduleJobs: takes the pending rows as they were read; the import slot's part of the pass is only in the transition system.
