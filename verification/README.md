# A verified model of k8s-panel's stateful cores

This project models, in Dafny 4.11, the parts of k8s-panel whose correctness only shows globally, and proves what they promise over every input, every interleaving and every crash. `dafny verify dfyconfig.toml` checks all of it.

- **Background operations** (`Protocol*.dfy`). Submitters, cancellers, workers, API calls that hold a target stripe, failing writes, stops, crashes and restarts form one transition system, because what matters here holds only across goroutines. Every store method is one step, as it runs under the store's mutex; every channel, stripe, slot and control-map operation is a step too. A job is carried by one goroutine at a time, so its progress is kept per operation. `ProtocolInvariant` says what every state satisfies, `ProtocolSteps` and `ProtocolEffects` why each step keeps it, `ProtocolSafety` that every run does, and `ProtocolTheorems`, `ProtocolRecords`, `ProtocolOutcome`, `ProtocolQueue`, `ProtocolStranded` and `ProtocolProgress` what follows: a job body runs at most once and never after a successful cancellation, finished records never change although the last write is unconditional (and exactly when a power loss can still take one back), every stored outcome is the one the body returned, audit events precede what they announce, same-target operations exclude each other, and work drains without deadlock, losing exactly what a failing store or a stop makes it give up. `ProtocolStore` ties its restarts to the disk, and `ProtocolWitness` holds two concrete runs.
- **File store** (`Records.dfy`, `FileStore.dfy`, `StoreAnswers.dfy`). The store is a class whose methods are proved against the state they ask to commit; `persist` is a sequence of system calls any of which may fail or be cut short, on a directory with its own idea of what survives a power loss; `Open` takes the directory that a crash leaves.
- **Governor** (`Governor.dfy`). Admission by a sampled limit with once-only release closures, as a class and as a ledger of events.
- **Gateway cache** (`GatewayCache.dfy`, `GatewayWorld.dfy`, `GatewayTheorems.dfy`, `GatewayAnswers.dfy`). One method per critical section, with Go's unspecified map order as arbitrary choice, and a transition system of callers that drop the lock while they build.
- **Bounded readers** (`ListReader.dfy`, `WorkloadReader.dfy`, `DeploymentHistory.dfy`, `DeploymentAnswers.dfy`). The server is an arbitrary function of all requests made so far.
- **Metric parser** (`PrometheusText.dfy`, `MetricNumber.dfy`, `ApiNames.dfy`, `DeprecatedApi.dfy`, `MetricAnswers.dfy`). Scanning loops proved against functions of the remaining text, printers with arbitrary label order, spaces and escapes, and the round trips between them.

The methods and steps are specified by functions; the `...Answers` modules, `ProtocolRecords` and `ProtocolQueue` say what these functions answer in terms of the inputs alone, field by field.

Conventions. Strings are Go byte strings, one character per byte. Integers are unbounded; the 64-bit hash, the 16- and 32-bit number parsers and every size limit are written out. Clocks, samples, IDs, builders, decoders and servers are parameters. Auxiliary state, which no step reads, is marked where it is declared. IDs are fresh, fingerprints do not collide, generation counters do not wrap, and a builder makes a new gateway each time.

Where an expectation needs a condition, the exact condition is proved:

- A finished record is forever if and only if every file that a crash may bring back holds it or has dropped it (`FinishedIsForeverIff`). That is so unless the process was started on a file whose directory entry was not synced and that Open had no reason to rewrite (`SyncedIsSecured`); `SuccessIsTakenBack` is a run where it fails.
- An operation is left unfinished if and only if the one write that would have taken it further was refused or failed, or a stopped service dropped it, with neither a cancellation nor a restart since (`UnfinishedIffGivenUp`, `NothingIsLost`); `BrokenClaimLosesWork` is such a run.
- Opening a store twice is the same as opening it once if and only if at most 2000 operations were in flight, because history is trimmed before interrupted operations are closed (`ReopenIsIdempotentIff`, with `ReopenOfLargeBacklog` for the family that fails).
- The governor's limit never rises with a finite reading, but an infinite reading counts as missing, and lifts the limit exactly if the finite one outweighs the other reading (`LimitIsMonotone`, `InfiniteReadingLifts`).

## Model

| member | source | states |
|---|---|---|
| ProtocolTheorems.BodyRunsAtMostOnce | internal/platform/operations.go:299-331 | In every run, over restarts too, the number of times the body of one operation's job starts is at most one |
| ProtocolTheorems.CanceledNeverRuns | internal/platform/operations.go:201-237 | After CancelOperation returned success, the body of that job never starts, however the run goes on and wherever the job was |
| ProtocolTheorems.CanceledHasNotRun | internal/platform/operations.go:201-237 | CancelOperation returns success only if the body of that job has not started |
| ProtocolRecords.OutcomeIsStored | internal/platform/operations.go:331-366 | When a job body returns, its outcome is audited and the record written, with any steps of others in between: the stored record is succeeded if and only if there was no error, unknown with operation_interrupted if and only if a stop canceled the job, and else failed with the error's code, or the default code of the kind for a cancellation; the audit event names the same result and code; if it cannot be stored, the record is failed with audit_failed |
| ProtocolOutcome.FinishedMeansEarned | internal/platform/operations.go:250-366 | Over every run, crashes and restarts included, state and error code of a finished record come from what the job body of that operation returned, an outcome that could not be audited, a rejected submission, a cancellation, or a restart |
| ProtocolOutcome.SucceededMeansReturned | internal/platform/operations.go:331-366 | Over every run, crashes and restarts included, a record that says succeeded belongs to a job whose body returned without an error |
| ProtocolTheorems.FinishedIsForever | internal/platform/operations.go:349-366 | A finished record is the same at every later point of every run, or was dropped by retention, unless the process was started on a file that a power loss may still take back and has committed nothing since |
| ProtocolTheorems.FinishedIsForeverIff | internal/store/file.go:96-119 | In every reachable state, a finished record is forever if and only if every file that a crash may bring back holds it, after trimming, or has dropped it |
| ProtocolTheorems.SyncedIsSecured | internal/store/file.go:470-476 | Unless the process was started on an unsynced file and has committed nothing since, every file that a crash may bring back holds the finished records of memory, or has dropped them |
| ProtocolTheorems.UnsecuredIsTakenBack | internal/store/file.go:96-119 | Otherwise one restart takes the record back |
| ProtocolTheorems.RestartShowsIff | internal/store/file.go:96-119 | A restart shows a finished record or none, whenever it happens, if and only if the file found holds that record after trimming, or none |
| ProtocolTheorems.FinishedIsNotWritten | internal/platform/operations.go:349-366 | No step has a state to commit that writes the record of an operation once finished |
| ProtocolWitness.SuccessIsTakenBack | internal/store/file.go:102-119 | A run in which the process dies between the rename and the sync of the last write, the next one shows the success without writing, and a power loss turns the operation unknown |
| ProtocolTheorems.IdentityIsForever | internal/platform/operations.go:239-286 | ID, request, kind, target, submitter, summary and creation time of a record never change over a run |
| ProtocolRecords.ChangeIsStamped | internal/platform/operations.go:201-366 | In every step but a restart, a record changes only by a step of its own operation, to exactly the state, error code and times that this step stands for |
| ProtocolTheorems.RecordsMove | internal/store/file.go:366-429 | In every step but a restart each record stays or takes an edge queued→running/canceled/failed or running→succeeded/failed/unknown, finished ones stay or are dropped, new ones are queued |
| ProtocolTheorems.RestartMovesRecord | internal/store/file.go:96-119 | A restart from any file that crashes and failed Opens may leave closes every unfinished record along a running-service edge or to unknown, and keeps or drops finished ones and brings a cancellation back only with its audit event, unless the process before it was started on an unsynced file |
| ProtocolTheorems.RestartDropsNothingUnfinished | internal/store/file.go:54-59 | Unless an Open failed before, a restart drops an unfinished record only if the file found already holds it finished |
| ProtocolTheorems.AuditComesFirst | internal/platform/operations.go:227-267 | A record turns running only after its "submitted" event was committed, succeeded only after its "succeeded" event was, and canceled only in a state that holds the cancel event, or by a restart that brings it back on an unsynced file after the event was committed |
| ProtocolRecords.SubmissionIsAudited | internal/platform/operations.go:250-264 | A submission goes on to the queue exactly if its audit event, with the operation's own actor, target and summary, was stored as the newest |
| ProtocolRecords.RejectionIsAudited | internal/platform/operations.go:279-282 | A submission turned away is audited as failed with queue_full |
| ProtocolRecords.CancellationIsAudited | internal/platform/operations.go:201-237 | A cancellation from a copy read earlier succeeds if and only if the record is still queued and the event can be stored; record and event are then committed together and the job's control is to be signaled, and otherwise nothing changes |
| ProtocolTheorems.SameTargetNeverTwice | internal/platform/operations.go:310-331 | Two operations on the same cluster, namespace and target never hold their stripe, so never execute, at once |
| ProtocolQueue.ApiCallsExcludeJobs | internal/platform/operations.go:599-613 | While a job holds the stripe of a target, no API call gets it |
| ProtocolQueue.JobsWaitForApiCalls | internal/platform/operations.go:583-613 | While an API call holds it, no job gets it |
| ProtocolTheorems.ExecutionsAreBounded | internal/resourceguard/governor.go:119-141 | Any set of jobs past admission is no larger than the governor's active count, which is within its maximum |
| ProtocolQueue.SlotsFollowGovernor | internal/resourceguard/governor.go:119-141 | A job gets a slot exactly when the governor admits one for the sample of the attempt, and the count of slots follows the governor's ledger |
| ProtocolQueue.SlotIsReleased | internal/resourceguard/governor.go:131-140 | And gives it back once |
| ProtocolQueue.NothingStartsUnderCriticalPressure | internal/resourceguard/governor.go:166-181 | While memory or load is at the critical mark no job is admitted |
| ProtocolTheorems.LastWriteFindsItsRecord | internal/platform/operations.go:366 | Whenever a worker is about to write the outcome, the record is still stored and running, so the unconditional update succeeds |
| ProtocolTheorems.ControlsBelongToJobs | internal/platform/operations.go:369-431 | No control outlives its job |
| ProtocolQueue.SignaledJobMayStop | internal/platform/operations.go:382-431 | After a successful cancellation and its signal the context of the job is done wherever the job waits, so it can give up |
| ProtocolQueue.StoppedJobMayStop | internal/platform/operations.go:404-431 | The same after a stop |
| ProtocolQueue.TurnedAwayIffFull | internal/platform/operations.go:266-270 | A submission enters the channel, behind the others, exactly if it holds less than its capacity, and is turned away otherwise |
| ProtocolQueue.QueueIsBounded | internal/platform/operations.go:266-270 | In every reachable state the channel holds at most its capacity |
| ProtocolQueue.FirstInFirstOut | internal/platform/operations.go:266-297 | Over every run of one process, what was queued and what entered is, in this order, what workers took and what is still queued |
| ProtocolQueue.OnlyOthersChangeClusters | internal/store/file.go:529-537 | No step of an operation changes schema version, clusters or repositories; a restart shows those of the file found |
| ProtocolQueue.OtherCommits | internal/store/file.go:442-476 | A commit of other data sets clusters and repositories, adds its audit event and leaves the operations alone |
| ProtocolQueue.FilesKeepClusters | internal/store/file.go:529-537 | Nor does a step of an operation bring other clusters or repositories into any file that a crash may leave |
| ProtocolTheorems.StartsAreCounted | internal/platform/operations.go:323-331 | The starts of a body in a run are exactly the passage of the operation from never begun to begun |
| ProtocolTheorems.MarksWereCommitted | internal/store/file.go:442-457 | Every audit event known after a run was in a state that the run committed or restored |
| ProtocolTheorems.RunGrows | internal/platform/operations.go:239-286 | Over a run, submissions, verdicts, starts, cancellations and audit events are only added |
| ProtocolProgress.SomebodyActs | internal/platform/operations.go:583-613 | In every reachable state of a service that is not stopped, with a carried job, a worker and a sample that leaves room for one operation, some step is enabled: stripe-then-slot with try-only API holders cannot deadlock |
| ProtocolProgress.EveryScheduleDrains | internal/platform/operations.go:288-297 | Unless the service is stopped, every schedule of the work at hand has at most Rank(s) steps and can be continued while a job is carried |
| ProtocolProgress.NothingIsLost | internal/platform/operations.go:299-367 | When no job is carried, an operation is unfinished if and only if its RejectUnaudited, RejectFull, Claim or Write was refused or failed while it was unfinished, or a stopped service dropped it, and no cancellation of it and no restart came after |
| ProtocolProgress.NothingIsHeld | internal/platform/operations.go:299-321 | When no job is carried, queue, workers, slots, controls and job stripes are free |
| ProtocolStranded.UnfinishedIffGivenUp | internal/platform/operations.go:254-286 | The same condition for one operation as soon as its own job is gone, whatever the others do |
| ProtocolStranded.StepStrands | internal/platform/operations.go:323-330 | Step by step: an operation is left to nobody exactly by those steps, and taken up exactly by a cancellation or a restart |
| ProtocolWitness.BrokenClaimLosesWork | internal/platform/operations.go:326-330 | A run in which the claim cannot be persisted: the job is gone and the operation stays queued |
| ProtocolSafety.EveryRunKeepsInv | internal/platform/operations.go:201-431 | The invariant over records, every file a crash may leave, queue, workers, stripes, slots and controls holds after every run |
| ProtocolSafety.RestartKept | internal/store/file.go:39-61 | A new process on any file a crash may leave, with all files that a further crash may still bring back, satisfies the invariant again |
| ProtocolSafety.FilesDerive | internal/store/file.go:63-119 | Every file left by any number of failed Opens derives from one that was there: the same audit events, each record the same, interrupted or dropped |
| ProtocolSafety.OtherKept | internal/store/file.go:442-476 | A commit of clusters, repositories or other audit events, whether it lands or breaks, keeps the invariant |
| ProtocolEffects.CreateFits | internal/platform/operations.go:244-249 | Creating the record, whether it commits, is refused or breaks, keeps what is known of the operation and of every file a crash may leave |
| ProtocolEffects.AuditSubmissionFits | internal/platform/operations.go:250-253 | The same of the submission audit |
| ProtocolEffects.RejectUnauditedFits | internal/platform/operations.go:254-264 | The same of failing the record after a refused audit, against a canceller that may have won |
| ProtocolEffects.RejectFullFits | internal/platform/operations.go:269-281 | The same of failing the record when the queue is full |
| ProtocolEffects.CancelFits | internal/platform/operations.go:210-236 | The same of a cancellation from a copy read earlier, whatever the job has done since |
| ProtocolEffects.ClaimFits | internal/platform/operations.go:323-330 | The same of the compare-and-set from queued to running |
| ProtocolEffects.ReportFits | internal/platform/operations.go:349-365 | The same of the outcome audit, whose failure turns the outcome into audit_failed |
| ProtocolEffects.WriteFits | internal/platform/operations.go:366 | The same of the last, unconditional write |
| ProtocolStore.CommitIsACall | internal/store/file.go:470-476 | A commit of the store is a store call of the protocol: same memory, same set of states a crash may restore |
| ProtocolStore.CrashIsARestart | internal/store/file.go:478-527 | A crash at any system call of any commit, of the process or of the machine, and the Open after it are a restart of the protocol: same memory, same states that a further crash may bring back |
| ProtocolStore.FailedOpenIsAnAttempt | internal/store/file.go:54-59 | What a failed Open leaves to be read is among the files that the protocol's restarts reckon with |
| Striping.TargetLock | internal/platform/operations.go:615-623 | The hashing loop computes the stripe that the protocol assigns to a target: 64-bit FNV-1a modulo 64 |
| Striping.HashIsFnv1a | internal/platform/operations.go:615-623 | The hash of "fo" is the published 64-bit FNV-1a value |
| Striping.TargetsAreToldApart | internal/platform/operations.go:616 | Different targets are hashed as different texts, as long as no name holds a NUL |
| Retention.RetentionIsExact | internal/store/file.go:539-554 | Trimming keeps every in-flight record, drops exactly the oldest finished ones, keeps order, and leaves max(2000, in flight) records on overflow |
| Retention.RetentionIsIdempotent | internal/store/file.go:539-554 | Trimming twice is trimming once |
| Retention.LookupAfterTrim | internal/store/file.go:352-364 | After a trim each ID finds its record, or nothing if the record was finished |
| Retention.TrimOperationHistory | internal/store/file.go:539-554 | The loop with its overflow counter computes the specified trim |
| Retention.TrimAuditHistory | internal/store/file.go:556-563 | The newest 5000 audit events remain |
| StoreSteps.ReopenSettlesEverything | internal/store/file.go:96-119 | Reopening leaves nothing queued or running, turns every interrupted record unknown and changes no finished one |
| StoreSteps.ReopenIsIdempotentIff | internal/store/file.go:54-59 | A second open changes nothing if and only if at most 2000 operations were in flight |
| StoreSteps.ReopenOfLargeBacklog | internal/store/file.go:54-59 | With 2001 queued operations the first open keeps 2001 records and the second drops one |
| StoreSteps.RotationIsCompareAndSet | internal/store/file.go:191-234 | Rotation commits exactly if the stored cluster is the validated one and the audit ID is new; then only that cluster and the audit history change |
| StoreAnswers.CreateAppends | internal/store/file.go:335-350 | A new operation is stored behind the others if and only if its ID is new; schema version, clusters, repositories and audit events stay, below 2000 records so does every operation, and no queued or running one is ever dropped |
| StoreAnswers.UpdateReplaces | internal/store/file.go:366-381 | An update replaces the one record of this ID and leaves everything else alone |
| StoreAnswers.TransitionRefuses | internal/store/file.go:383-414 | Exactly which transitions are malformed or find no record |
| StoreAnswers.TransitionSwaps | internal/store/file.go:383-429 | A transition replaces the record and logs its event, among the newest 5000, if and only if the record is in the expected state and the event's ID is new; everything else stays |
| StoreAnswers.AuditLogs | internal/store/file.go:442-457 | An audit event is logged if and only if its ID is new; everything else stays |
| StoreAnswers.RotationTouchesOneCluster | internal/store/file.go:191-234 | A rotation replaces the expected cluster, logs its event and leaves everything else alone |
| StoreAnswers.OpenChangesOperationsOnly | internal/store/file.go:63-119 | Opening keeps schema version, clusters, repositories and the newest 5000 events, turns each queued or running operation unknown with process_restarted, and keeps the others or, above 2000 records, may drop them |
| Disk.PersistIsAtomic | internal/store/file.go:478-527 | After every system call, finished or broken off, a crash or power loss reads a whole earlier state or the whole new one |
| Disk.PersistOutcome | internal/store/file.go:478-527 | A persist that reports success leaves only the new state to be read; one that fails adds at most the new state, and nothing if it failed before the rename |
| StoreRuns.EveryRunIsSound | internal/store/file.go:470-476 | After any run of commits with any failures, the file restores memory or another known state: one whose commit failed since the last success, or one the opened directory was not synced against |
| StoreRuns.CrashAnywhereRestores | internal/store/file.go:478-527 | The same at every system call of a further commit |
| StoreRuns.EveryLifeIsSound | internal/store/file.go:39-61 | Through any commits, failures, crashes, power losses and reopenings, what can be read is one complete state: memory, or one known before |
| StoreRuns.CrashKeeps | internal/store/file.go:478-527 | After a crash of the process or the machine, everything that can be read is memory, a state known before, or the one being committed |
| StoreRuns.UnsyncedStateIsTakenBack | internal/store/file.go:66-68 | A state renamed but not synced is opened without a write and a power loss takes it back |
| FileStore.File.Open | internal/store/file.go:39-61 | Open rejects torn files and other schemas, and otherwise yields the reopened state; it writes, and so syncs the directory, only if it trims or interrupts something, and leaves everything else readable; a failed Open adds at most the trimmed and the reopened state |
| FileStore.File.CreateOperation | internal/store/file.go:335-350 | One attempt to commit the record appended and trimmed, or a conflict that changes nothing |
| FileStore.File.UpdateOperation | internal/store/file.go:366-381 | One attempt to commit the record replaced in place, or not-found |
| FileStore.File.TransitionOperation | internal/store/file.go:383-429 | One attempt to commit record and audit event together, exactly if the stored state is the expected one |
| FileStore.File.CreateAuditEvent | internal/store/file.go:442-457 | One attempt to commit the event appended and trimmed, or a conflict |
| FileStore.File.RotateClusterCredentials | internal/store/file.go:191-234 | One attempt to commit cluster and audit event together, exactly if the stored cluster is the expected one |
| FileStore.File.Commit | internal/store/file.go:470-476 | Memory changes exactly if persist reports success, and the store stays sound |
| FileStore.File.Persist | internal/store/file.go:478-527 | The sequence of system calls, with any one failing, computes the specified directory |
| Governing.LimitBounds | internal/resourceguard/governor.go:166-181 | The limit is within 0..max, 0 exactly under critical pressure, half rounded up from the high mark on, and else the maximum |
| Governing.PressureIsExact | internal/resourceguard/governor.go:166-202 | The reported pressure is critical, constrained or unknown exactly by the readings that reach the marks or cannot be used |
| Governing.LimitIsMonotone | internal/resourceguard/governor.go:166-202 | The limit never rises as either finite reading rises |
| Governing.InfiniteReadingLifts | internal/resourceguard/governor.go:183-189 | An infinite reading of memory or load counts as missing, and raises the limit above that of a finite one exactly if the finite one reaches a mark that the other reading does not (the high mark matters from a maximum of 2 on) |
| Governing.ActiveCountsOpenGrants | internal/resourceguard/governor.go:119-141 | After any interleaving of admissions and releases, repeated ones included, active is the number of grants not yet released, within 0..max |
| Governing.PostKeepsBalance | internal/resourceguard/governor.go:119-141 | A grant opens exactly one handle if the limit of its own sample leaves room; a first release closes exactly its handle and finds active positive; a repeated one does nothing |
| Governing.Governor.TryAcquire | internal/resourceguard/governor.go:119-141 | Admits exactly if the open grants are fewer than the limit of this sample |
| Governing.Governor.Acquire | internal/resourceguard/governor.go:98-117 | Attempt by attempt, with arbitrary admissions and releases of others between them, admits at the first that finds fewer open grants than the limit of its sample, and leaves only what the others did if none does |
| Governing.Governor.Release | internal/resourceguard/governor.go:131-140 | Closes its handle once |
| GatewayTheorems.CachedGatewayIsCurrent | internal/platform/gateway_cache.go:127-166 | A cached gateway was built for its cluster and fingerprint by a build begun after the latest Invalidate of that cluster, and nobody is building for it |
| GatewayTheorems.SingleFlight | internal/platform/gateway_cache.go:114-130 | At most one build per cluster is in flight, it is the registered one, and its cluster is not cached, so the replace branch is unreachable |
| GatewayTheorems.GetReturnsWhatWasAsked | internal/platform/gateway_cache.go:102-167 | A successful Get returns a gateway made for the cluster and fingerprint asked for |
| GatewayTheorems.CacheIsBounded | internal/platform/gateway_cache.go:183-193 | Entries ≤ capacity ≤ maximum and capacity ≥ 1 whenever the lock is free |
| GatewayTheorems.EachGatewayIsInOnePlace | internal/platform/gateway_cache.go:92-168 | Every gateway a builder returned is cached, held by its builder or retired, exactly once in all |
| GatewayTheorems.CachedOnce | internal/platform/gateway_cache.go:146-156 | No gateway is cached under two clusters |
| GatewayTheorems.RetirementIsFinal | internal/platform/gateway_cache.go:171-253 | A retired gateway is never retired again nor cached |
| GatewayTheorems.OvertakenBuildIsRefused | internal/platform/gateway_cache.go:143-146 | A build overtaken by Invalidate or Close gets InvalidState, its gateway is retired and the cache is unchanged |
| GatewayTheorems.InvalidateOvertakes | internal/platform/gateway_cache.go:171-181 | Invalidate and Close overtake the builds in flight, and a build is overtaken exactly if the cache is closed or its cluster was invalidated since it began |
| GatewayTheorems.OvertakenBuildNeverSucceeds | internal/platform/gateway_cache.go:131-167 | Once overtaken, a call never returns a gateway, however the run goes on |
| GatewayTheorems.ClosedStaysEmpty | internal/platform/gateway_cache.go:206-218 | After Close the cache is closed and empty forever |
| GatewayTheorems.WaitersAreServed | internal/platform/gateway_cache.go:114-126 | A waiter can wake up, or the build it waits for can go on |
| GatewaySafety.StepKept | internal/platform/gateway_cache.go:76-218 | Every step of every caller keeps the invariant behind these theorems |
| GatewayAnswers.GetServesLiveGateway | internal/platform/gateway_cache.go:92-134 | On an open cache, Get serves the stored gateway if and only if it has the fingerprint asked for and now is before its last use plus the time to live, and notes the use; otherwise it drops the entry and waits for the registered build or starts one; of the other entries exactly the live ones stay, unchanged |
| GatewayAnswers.GetLeavesNothingExpired | internal/platform/gateway_cache.go:220-230 | After a Get on an open cache no entry is past its time to live |
| GatewayAnswers.ClosedCacheRefuses | internal/platform/gateway_cache.go:97-100 | A closed cache refuses and stays as it is |
| GatewayAnswers.CompleteCachesNewGateway | internal/platform/gateway_cache.go:136-168 | A build succeeds if and only if it returned a gateway without error on an open cache that did not invalidate the cluster since; only then do the entries change, to the new one and the most recently used others that fit, unchanged |
| GatewayAnswers.NewestGatewayIsCached | internal/platform/gateway_cache.go:151-158 | A gateway built later than all others were used is cached |
| GatewayAnswers.InvalidateForgetsOneCluster | internal/platform/gateway_cache.go:171-181 | Invalidate drops the entry and raises the generation of its cluster, and leaves those of all others alone |
| GatewayAnswers.ReconcileKeepsLiveGateways | internal/platform/gateway_cache.go:183-193 | On an open cache Reconcile drops every expired entry and keeps, unchanged, as many of the live ones as fit the capacity of the pressure, the most recently used first |
| GatewayAnswers.ClosedCacheStays | internal/platform/gateway_cache.go:183-218 | Reconcile and a second Close leave a closed cache as it is; a first Close drops the entries and nothing else |
| GatewayAnswers.GetReturnsLiveGateway | internal/platform/gateway_cache.go:92-113 | In every reachable state, a Get that does not wait returns a gateway if and only if that is cached for its cluster and fingerprint and live |
| GatewayAnswers.WaiterLearns | internal/platform/gateway_cache.go:114-124 | A waiter gets the error of the build if that had its fingerprint, and otherwise looks again |
| GatewayEntries.KeepsGreatestIsUnique | internal/platform/gateway_cache.go:232-253 | Only one set of entries holds exactly the capacity greatest by last use and cluster ID, so iteration order cannot matter |
| GatewayEntries.SortAndDropKeepsGreatest | internal/platform/gateway_cache.go:232-253 | Sorting by age and dropping the front leaves those entries |
| GatewayEntries.RetiredIsWhatIsLost | internal/platform/gateway_cache.go:92-168 | What a critical section retires is exactly what the entries, with the gateway brought in, have lost: the methods' conservation is the world's count of retirements |
| GatewayCaching.GatewayCache.EvictLocked | internal/platform/gateway_cache.go:232-253 | The nested loops, scanning in any order, leave exactly the capacity greatest entries and retire all others once |
| GatewayCaching.GatewayCache.ExpireLocked | internal/platform/gateway_cache.go:220-230 | Exactly the entries within their time to live remain; the others are retired once |
| GatewayCaching.GatewayCache.Begin | internal/platform/gateway_cache.go:92-134 | The first critical section of Get: refusal, hit, wait or build, and every dropped gateway retired once |
| GatewayCaching.GatewayCache.Complete | internal/platform/gateway_cache.go:136-168 | The second critical section of Get: the gateway is cached before eviction, or refused and retired |
| GatewayCaching.GatewayCache.Invalidate | internal/platform/gateway_cache.go:171-181 | The generation grows and the entry, if any, is retired once |
| GatewayCaching.GatewayCache.Reconcile | internal/platform/gateway_cache.go:183-193 | Capacity follows pressure, expired and surplus entries are retired once; nothing happens when closed |
| GatewayCaching.GatewayCache.Close | internal/platform/gateway_cache.go:206-218 | Closed and empty, every entry retired once |
| GatewayCaching.GatewayCache.New | internal/platform/gateway_cache.go:55-74 | A cache exists exactly for sizes 1..64 and times to live of one minute to one hour |
| GatewaySteps.AdaptiveCapacity | internal/platform/gateway_cache.go:255-267 | The capacity is within 1..maximum: 1 under critical pressure, half rounded up under constrained, else the maximum |
| ListReader.WholeListIsRead | internal/kubernetes/client.go:684-724 | A list whose pages fit the budget is returned whole, in order, with exactly its requests made |
| ListReader.OnlyWholeListsAreRead | internal/kubernetes/client.go:684-724 | Every success is such a list: nothing is silently dropped |
| ListReader.ReadingIsBounded | internal/kubernetes/client.go:674-724 | Whatever the server does, pages, items and bytes stay within the limits and each page costs one request |
| ListReader.AppendListItemsWithBudget | internal/kubernetes/client.go:736-754 | A page is taken exactly if its items and bytes as a whole fit; otherwise the budget is unchanged |
| ListReader.ListRawWithBudget | internal/kubernetes/client.go:684-724 | The page loop computes the specified reading on the shared budget |
| WorkloadReader.AllListsAreRead | internal/kubernetes/client.go:316-339 | If the lists of all requested kinds together fit one budget and decode, all of them are returned |
| WorkloadReader.OnlyAllListsAreRead | internal/kubernetes/client.go:316-339 | Every success holds every item of every page of every requested kind |
| WorkloadReader.ReadKindsIsBounded | internal/kubernetes/client.go:316-339 | At most 20 requests, 5000 items and 32 MiB over all kinds together |
| WorkloadReader.ReadKindsAnswers | internal/kubernetes/client.go:316-339 | The shared-budget reading succeeds exactly for such lists and returns all of them |
| WorkloadReader.Workloads | internal/kubernetes/client.go:316-350 | Succeeds if and only if the lists of all requested kinds fit one budget and decode, and then returns a sorted permutation of all their workloads, after at most 20 requests |
| WorkloadReader.RequestedKinds | internal/kubernetes/client.go:324-327 | Without a filter the six kinds are read in this order; with one, that kind; none for an unknown kind |
| WorkloadReader.FitsIff | internal/kubernetes/client.go:316-339 | The shared budget is 20 pages, 5000 items and 32 MiB over all lists |
| WorkloadReader.DecodedInOrder | internal/kubernetes/client.go:332-338 | The rows of a list are its items decoded one by one, in order, and it decodes exactly if each does |
| WorkloadReader.NotBeforeIsInOrder | internal/kubernetes/client.go:340-348 | The sort orders by namespace, then kind, then name |
| StringOrder.LessIsBytewise | internal/kubernetes/client.go:340-348 | Strings compare by the byte where they first differ, and a proper prefix is smaller |
| DeploymentRevisions.CanonicalRoundTrip | internal/kubernetes/deployment_revision_history.go:246-260 | The numeral of every number in 1..2^31-1 is accepted as that number |
| DeploymentRevisions.AcceptedIsFormatted | internal/kubernetes/deployment_revision_history.go:246-260 | Every accepted string is the numeral of its number, and at most 10 characters long |
| DeploymentRevisions.CanonicalDeploymentRevision | internal/kubernetes/deployment_revision_history.go:246-260 | The parse returns n exactly for the numeral of n |
| DeploymentHistory.DecodeDeploymentReplicaSetRevision | internal/kubernetes/deployment_revision_history.go:163-213 | The scan of the owners accepts exactly a sound ReplicaSet with at most one controller, and assigns it if that is the Deployment |
| DeploymentAnswers.BelongingIsExact | internal/kubernetes/deployment_revision_history.go:163-213 | A ReplicaSet counts as a revision of the Deployment if and only if its metadata is in order and its one controller is the apps/v1 Deployment of that name and that UID; without annotation it is unassigned, with the numeral of n it is revision n with its own name and creation time, and anything else is an error |
| DeploymentHistory.CountIsExact | internal/kubernetes/deployment_revision_history.go:109-130 | A page is counted exactly if each ReplicaSet is sound and no revision number repeats; then nothing is left out |
| DeploymentHistory.OwnedIsAssignedOrUnassigned | internal/kubernetes/deployment_revision_history.go:116-122 | Owned ReplicaSets are the assigned and the unassigned ones |
| DeploymentAnswers.UnassignedAreCounted | internal/kubernetes/deployment_revision_history.go:116-119 | The unassigned count is the number of places of such ReplicaSets |
| DeploymentAnswers.AssignedAreListed | internal/kubernetes/deployment_revision_history.go:120-125 | The revisions found are exactly those that some ReplicaSet carries |
| DeploymentHistory.BoundedIsTop | internal/kubernetes/deployment_revision_history.go:262-278 | The result holds the min(20, n) newest revisions, strictly descending; the rest is older; truncated says whether there is a rest |
| DeploymentHistory.OneCurrent | internal/kubernetes/deployment_revision_history.go:209-212 | At most one revision is marked current, and it is the Deployment's |
| DeploymentHistory.WholeCollectionIsRead | internal/kubernetes/deployment_revision_history.go:79-145 | A collection within the limits, with sound ReplicaSets, distinct revisions and fresh tokens, is read whole |
| DeploymentHistory.OnlyWholeCollectionsAreRead | internal/kubernetes/deployment_revision_history.go:79-145 | Nothing else is ever accepted |
| DeploymentAnswers.AcceptableIff | internal/kubernetes/deployment_revision_history.go:79-145 | A collection is accepted if and only if it has at most 4 pages of at most 2 MiB, 4 MiB in all, different valid tokens between them, and at most 1000 ReplicaSets, all in order and no two of one number |
| DeploymentAnswers.ItemsAreOfPages | internal/kubernetes/deployment_revision_history.go:105-109 | Its ReplicaSets are those of its pages |
| DeploymentHistory.DeploymentRevisionHistory | internal/kubernetes/deployment_revision_history.go:74-146 | Succeeds if and only if the server hands out an acceptable collection, after at most 4 requests, and then returns the newest min(20, n) revisions of all its ReplicaSets and counts those without a number |
| DeploymentHistory.ReadHistory | internal/kubernetes/deployment_revision_history.go:74-146 | The page loop computes the specified reading |
| DeploymentHistory.ReadPagesAnswers | internal/kubernetes/deployment_revision_history.go:74-146 | The reading succeeds exactly for an acceptable collection and yields the newest of all its revisions |
| PrometheusText.QuoteRoundTrip | internal/kubernetes/deprecated_api.go:202-236 | Quoting any value of at most 253 bytes and scanning it gives the value back, and stops right behind it |
| PrometheusText.AcceptedValueRoundTrip | internal/kubernetes/deprecated_api.go:202-236 | Every value the scanner accepts quotes and scans to itself |
| PrometheusText.LabelSetRoundTrip | internal/kubernetes/deprecated_api.go:152-200 | Labels printed in any order, with any legal spaces and escapes, scan to what they say and nothing more is consumed |
| PrometheusText.LabelSetIsPrinted | internal/kubernetes/deprecated_api.go:152-200 | The converse: an accepted label set without special characters in its values is the print of its labels |
| PrometheusText.OnlyChainsAreGathered | internal/kubernetes/deprecated_api.go:152-200 | An accepted label set is a chain of labels with different names, separated by commas up to the brace, and means exactly them |
| PrometheusText.ParsePrometheusLabelValue | internal/kubernetes/deprecated_api.go:202-236 | The scanning loop stays in bounds and finds what the function of the remaining text finds |
| PrometheusText.ParseLabelSet | internal/kubernetes/deprecated_api.go:152-200 | The same of the label set |
| PrometheusText.SkipPrometheusSpaces | internal/kubernetes/deprecated_api.go:333-338 | Skips exactly the spaces and tabs |
| MetricNumber.PrintedIsScanned | internal/kubernetes/deprecated_api.go:262-306 | Every well-formed numeral scans to its parts |
| MetricNumber.ScannedIsPrinted | internal/kubernetes/deprecated_api.go:262-306 | Every accepted text is a well-formed numeral |
| MetricNumber.ValidDeprecatedApiMetricValue | internal/kubernetes/deprecated_api.go:262-306 | The loops accept exactly a text of at most 32 bytes whose numeral is one |
| MetricValues.IsOneIff | internal/kubernetes/deprecated_api.go:304-305 | The numeral is accepted as one if and only if the rational number that its digits, point and exponent denote is one |
| MetricValues.AcceptedMeansOne | internal/kubernetes/deprecated_api.go:262-306 | A sample value is accepted if and only if it has at most 32 bytes and writes the number one |
| ApiRecords.ReleaseIsPrinted | internal/kubernetes/deprecated_api.go:238-245 | A release determines its text: parsing is injective |
| ApiRecords.PrintedIsRelease | internal/kubernetes/deprecated_api.go:238-245 | Every pair of 16-bit numbers is the release of its text |
| ApiRecords.ParseVersionNumber | internal/kubernetes/version_skew.go:262-275 | The loop accepts exactly a canonical numeral of at most 65535 and stops behind its digits |
| ApiRecords.ValidDeprecatedApiResourceName | internal/kubernetes/deprecated_api.go:247-260 | The loop accepts exactly DNS labels of at most 63 bytes, or the empty name where allowed |
| ApiNames.ServiceIff | internal/domain/validation.go:427-433 | API service names are a label, a dot, and nothing or labels with dots between them, in at most 253 bytes |
| ApiNames.ValidRecordIff | internal/kubernetes/deprecated_api.go:134-149 | Which records are valid, told by the characters and parts of their fields |
| MetricLines.LineRoundTrip | internal/kubernetes/deprecated_api.go:113-150 | Any valid record, its labels in any order, with any legal spaces, escapes, text of the value one and trailing spaces, parses back to itself |
| MetricLines.AcceptedLineIsPrinted | internal/kubernetes/deprecated_api.go:113-150 | The converse: every accepted line is the print of its record, for some order of labels, spaces, text of the value one and trailing spaces |
| MetricAnswers.LinesAreExact | internal/kubernetes/deprecated_api.go:113-150 | A line is ignored if and only if the metric name does not stand in it behind nothing but spaces and tabs, or goes on as another name; it is accepted as a record if and only if it prints that; and it is rejected if and only if it is neither |
| MetricLines.ParseDeprecatedApiMetricLine | internal/kubernetes/deprecated_api.go:113-150 | The line parser finds what its specification finds |
| MetricLines.NamesAreGood | internal/kubernetes/deprecated_api.go:308-315 | The five label names of the metric are distinct and are names of the text format |
| DeprecatedApi.CollectIsExact | internal/kubernetes/deprecated_api.go:73-111 | A scrape is accepted exactly if no line is rejected, at most 512 records occur and none occurs twice; then every record is kept |
| MetricAnswers.ScrapeIsExact | internal/kubernetes/deprecated_api.go:34-111 | A scrape succeeds if and only if every line, of at most 64 KiB and without its carriage return, is ignored or prints a record, at most 512 do and no two print the same; the list then holds exactly these records |
| MetricAnswers.OtherMetricsDoNotMatter | internal/kubernetes/deprecated_api.go:113-123 | Inserting or removing lines of other metrics anywhere changes neither success nor the list |
| MetricAnswers.ListAscends | internal/kubernetes/deprecated_api.go:50-69 | The list ascends strictly by major and minor release, group, version, resource and subresource |
| DeprecatedApi.BeforeIsTotal | internal/kubernetes/deprecated_api.go:50-69 | The comparator orders any two different valid records |
| DeprecatedApi.SortingIsUnique | internal/kubernetes/deprecated_api.go:50-70 | Every sorted permutation of the accepted records is the same list |
| DeprecatedApi.OrderOfLinesIsIrrelevant | internal/kubernetes/deprecated_api.go:34-111 | Any permutation of the lines gives the same failure or the same list |
| DeprecatedApi.ParseDeprecatedApiMetrics | internal/kubernetes/deprecated_api.go:73-111 | The loop over the lines with its set of seen records computes the specified collection |
| DeprecatedApi.DeprecatedApiRequests | internal/kubernetes/deprecated_api.go:34-71 | The request list of a scrape, sorted |

## Left out

- HTTP handlers, cookies, routing, static files and the web front end: plumbing around the service.
- Helm, chart repositories, outbound dialing, TLS, ciphers and password hashing: foreign libraries and networks.
- JSON and YAML decoding: the models start from decoded records, pages and rows. Checks of characters and lengths of ReplicaSet identities, owners and continue tokens are flags or parameters.
- What a running job does to the cluster: an arbitrary terminating effect with a result.
- The system sampler: a sample is an arbitrary value, ratios are real numbers, and not-a-number and the infinities are separate values.
- The methods UpdateCluster and the other whole-record writes of clusters and repositories, which are last-writer-wins by design: they repeat the pattern of UpdateOperation. In the protocol, what they commit is arbitrary.
- The other list and detail decoders, which repeat the pagination pattern, node version skew and the service's read wrappers.
- Idle workers leaving when the service stops; SomebodyActs and EveryScheduleDrains are stated for services that are not stopped.
- Error messages of operation records are abbreviated. The audit event of a cancellation carries the submitter and the request of the operation, because the canceling caller is not modelled.
- How the error of a job body is classified into an error code: the code is a parameter, but for the default of a canceled job.
- The order in which retired gateways are closed, and the call that closes their idle connections: the model keeps which gateways are retired and how often.
- internal/platform/operations.go is a transition system instead of a class with methods, because a sequential method cannot be interrupted between its steps; its loops and updates in place appear as steps.
- DeploymentHistory.DecodeDeploymentReplicaSetRevision: the checks of characters and lengths of names, UIDs and owner fields are flags of the decoded record, because they rest on Unicode classes of a foreign library.
- WorkloadReader.Workloads: does not fix the order of workloads that agree in namespace, kind and name, because the sort is not stable.
