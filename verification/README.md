# AI infrastructure lab: verified model

A Dafny 4.11 model of the lab's four hard cores, with proofs about all of their runs and inputs:

1. **The AIJob control loop** (`Conditions`, `StatusProjection`, `JobSets`, `ControlLoop`, `LoopSafety`,
   `LoopTransitions`, `LoopConvergence`, `Reconciler`). One AIJob name is a transition system whose steps are single API
   calls of any number of Reconcile calls and arbitrary moves of everybody else: users, queue administrators, the JobSet
   controller, webhooks. Reads may return any version that ever existed; writes are checked against the stored version;
   a call may stop anywhere. `Reconciler` is the imperative Reconcile, proved to be a run of that system with whatever
   falls between its calls, so every theorem about runs is about it.
2. **GPU capacity, fragmentation and the placement scenario** (`GpuCapacity`, `Placement`, `Sorting`).
3. **The benchmark as a process that may fail at any call** (`LabCluster`, `Evidence`, `RunDocument`, `BenchmarkRun`,
   `FaultyRuns`, `Results`, `Snapshots`, `ClusterObjects`). API calls are refused, or take effect while their answer is
   lost, as an oracle says by their number; what a run records and whether it succeeds is a function of that.
4. **The worker and its reader, and the scheduler plugin** (`IndexList`, `Worker`, `WorkerReports`, `TopologyPlugin`).

`dafny verify dfyconfig.toml` checks everything.

## What the model takes as given

- *API server.* A create fails when the object exists; an update or status update fails when the object is gone or its
  stored version is not the one sent; a status update changes the status only; spec edits raise the generation and
  metadata edits do not; users do not write status; a JobSet carries at most one condition of a kind. The AIJob fields
  declared immutable are immutable for as long as the UID lives.
- *Controller libraries* (controller-runtime v0.22.1, whose source is not part of this model). `CreateOrUpdate` reads,
  mutates, then creates, updates if something changed, or does nothing. `SetControllerReference` refuses when another
  UID controls the object; that a controlling UID is never replaced rests on this. `SetStatusCondition` replaces by
  kind or appends, and moves the transition time only with the truth value.
- *One name at a time.* The desired JobSet has the AIJob's own name, so different AIJobs do not interact.
- *Scheduler.* NodeResourcesFit scores a node `(free - request) * 100 / capacity` under LeastAllocated and
  `(used + request) * 100 / capacity` under MostAllocated; the weighted scores add up; ties are broken arbitrarily.
- *Benchmark.* Nobody else changes the scheduler's configuration during a run, and other AIJobs change only by vanishing
  when they were already being deleted. The clock does not run backwards, and its printed form tells times apart; nodes
  advertise no negative capacity. A cluster call, a file written and the parsing of worker logs each count as one call.
- Ratios are real numbers, times are integers, and quantities are unbounded integers.

## Where code and documentation differ

- The benchmark specification says that an incomplete experiment exits non-zero. In the code a failed final snapshot or
  an incomplete evidence bundle makes the result incomplete without failing the run: `RunOne` states exactly when a
  run succeeds, `RunDocument.CompleteIff` when its result is complete, and `LosesItsEvidence` and `LosesItsSnapshot`
  are runs that succeed with an incomplete result.
- A result written is not always one that passes validation: `WrittenResultIsValidIff` and `BrokeHoldingIffFirstFault`
  say exactly when, by the first call that goes wrong, and `BreaksAtFirstHolder` is a run whose result does not pass.
- The observability specification says that a plugin error is counted when required framework state is unavailable. In
  the code only a missing node is counted; `Filter` and `Score` state that the counters then stay as they were.

## Model

| member | source | states |
|---|---|---|
| Conditions.SetConditionFrames | internal/controller/aijob_controller.go:326 | Setting a condition keeps kinds distinct, leaves one entry of its kind and every other entry in place |
| StatusProjection.StatusFromJobSet | internal/controller/aijob_controller.go:288-299 | The projected status has the JobSet's conditions, each stamped with the AIJob's generation |
| StatusProjection.StatusWithQueue | internal/controller/aijob_controller.go:301-328 | The queue state is set in the given conditions, over the previous QueueReady entry when they have none |
| StatusProjection.WithQueueFrames | internal/controller/aijob_controller.go:301-328 | Projection keeps kinds distinct, keeps every other condition, and leaves one QueueReady that tells the truth under the current generation |
| StatusProjection.QueueReadySays | internal/controller/aijob_controller.go:314-327 | The QueueReady entry's status, reason, message and generation, in both cases |
| StatusProjection.OthersStayInPlace | internal/controller/aijob_controller.go:301-328 | Every other condition stays where it was |
| StatusProjection.TransitionTimeIsCarriedIff | internal/controller/aijob_controller.go:308-313 | Transition times survive everything but a flip exactly when the JobSet has no QueueReady condition of its own |
| StatusProjection.WithQueueAgain | internal/controller/aijob_controller.go:301-328 | Projecting again changes nothing if the JobSet's own QueueReady is absent or agrees, and changes something at any other time if it does not |
| StatusProjection.CarryingOverIsEssential | internal/controller/aijob_controller.go:308-313 | Without carrying the old QueueReady over, an unchanged state would project the same status only at the same instant; with it, at every time |
| StatusProjection.WaitingAgain | internal/controller/aijob_controller.go:69-75 | Reporting a missing queue a second time changes nothing |
| StatusProjection.WaitingStampsIff | internal/controller/aijob_controller.go:69-75 | With the queue missing, all conditions carry the current generation exactly when those carried over already did |
| StatusProjection.WaitingKeepsOldStamps | internal/controller/aijob_controller.go:71-75 | A concrete status whose carried-over condition keeps its old generation |
| StatusProjection.ProjectionStampsAll | internal/controller/aijob_controller.go:95-99 | With the queue present, all conditions carry the current generation |
| ControlLoop.WaitingStatusSays | internal/controller/aijob_controller.go:69-76 | The status of a call that missed the queue announces so of the queue the AIJob names, or else training, and keeps every other condition |
| ControlLoop.ReadyStatusSays | internal/controller/aijob_controller.go:96-99 | The status of a call that found it announces so of that queue and shows exactly what the JobSet reports, stamped |
| Topology.LabLabels | internal/topology/constants.go:33-41 | Exactly the two lab labels that are set to something are propagated |
| JobSets.JobSetObject.SetControllerReference | internal/controller/aijob_controller.go:122-124 | Refuses exactly when another UID controls the object, and then changes nothing |
| JobSets.JobSetObject.ReconcileOwnedFields | internal/controller/aijob_controller.go:191-213 | The in-place loop over owned keys and the guarded spec writes amount to one owned-fields update |
| JobSets.OwnedLabelAt | internal/controller/aijob_controller.go:195-202 | An owned label takes the desired value or goes; any other label keeps what it had |
| JobSets.DesiredLabelAt | internal/controller/aijob_controller.go:163-166 | What the desired JobSet asks of each of the four owned labels |
| JobSets.WrittenLabels | internal/controller/aijob_controller.go:193-204 | After a write the JobSet carries the AIJob's name, the queue it names or else training, its run and experiment as far as it says any, and every other label it had |
| JobSets.WrittenSpec | internal/controller/aijob_controller.go:204-213 | Suspend follows the overrides if there are any; the rest of the spec is what the AIJob asks for in a new JobSet and stays in an old one; nothing else is touched |
| JobSets.WrittenWorkers | internal/controller/aijob_controller.go:215-264 | The workers of a new JobSet: number, GPUs, resource, image and arguments as the AIJob says, with the defaults |
| JobSets.WrittenWorkerLabels | internal/controller/aijob_controller.go:218-230 | Job and pod labels: run and experiment, and on pods the AIJob's name |
| JobSets.WrittenWorkerAnnotations | internal/controller/aijob_controller.go:266-286 | A preferred GPU topology and a required one are passed on, same-rack as a topology to be co-located on, the others as a class, and nothing else |
| JobSets.PutGet | internal/controller/aijob_controller.go:191-213 | After the write the JobSet shows the desired owned labels and any requested suspend |
| JobSets.GetPut | internal/controller/aijob_controller.go:191-213 | A created JobSet is left unchanged exactly when it already agrees |
| JobSets.PutPut | internal/controller/aijob_controller.go:191-213 | The last desired labels win; a suspend asked for earlier stays until asked otherwise |
| JobSets.CommutesWithForeignEdits | internal/controller/aijob_controller.go:189-213 | The write commutes with every outside edit of other labels and of the spec apart from suspend |
| JobSets.OutsideSuspendSurvivesIff | internal/controller/aijob_controller.go:181-185 | An outside suspend survives every write exactly when the AIJob has no JobSet overrides |
| LoopSafety.EveryWriteIsSafe | internal/controller/aijob_controller.go:109-129 | In every run: creates replace nothing and carry the template of the immutable spec; updates touch only JobSets this UID controls or nobody does, and leave creation-only spec fields, foreign labels, other metadata and (without overrides) suspend alone |
| LoopSafety.EveryStatusIsGood | internal/controller/aijob_controller.go:47-107 | In every run and version: distinct kinds; every condition but QueueReady was reported by a version of a JobSet this AIJob controlled; stamp <= observed generation <= generation; observed generation never goes back under one UID |
| LoopSafety.StepKeeps | internal/controller/aijob_controller.go:47-141 | Each single API call or outside move keeps the invariant behind both |
| LoopTransitions.TransitionTimeIsLastFlip | internal/controller/aijob_controller.go:301-328 | In every run whose JobSets report no QueueReady, its transition time is that of the last change of readiness in the log of status writes |
| LoopConvergence.OnePassConverges | internal/controller/aijob_controller.go:47-107 | From every reachable state with queue and ownable JobSet, one undisturbed call makes at most two writes, after which any call writes nothing, or rewrites the status if the JobSet's own QueueReady is not True |
| LoopConvergence.QueuePresentIff | internal/controller/aijob_controller.go:66-69 | The queue looked for is the one the AIJob names, or else training |
| LoopConvergence.EveryLaterPassIsQuiet | internal/controller/aijob_controller.go:131-141 | After that, any number of calls at any intervals write nothing |
| LoopConvergence.EveryLaterPassWrites | internal/controller/aijob_controller.go:309-313 | In the other case each of any number of calls writes the status once more |
| LoopConvergence.WaitingConverges | internal/controller/aijob_controller.go:69-85 | Without its queue a call leaves the JobSet alone and settles after one status write |
| LoopConvergence.ForeignJobSetIsLeftAlone | internal/controller/aijob_controller.go:90-94 | With a JobSet under another UID a call changes nothing stored |
| Reconciler.AIJobReconciler.Reconcile | internal/controller/aijob_controller.go:47-107 | Whatever happens around it, the call is a sequence of steps of the control loop; its outcome is decided by how its API calls fare: an error exactly when one is not answered, the JobSet is under another UID, or a needed write is stale; waiting means the missing queue is shown, success that the JobSet was as the AIJob asks and that the status projected from it is shown; it counts its outcome, an error under the API call that failed, the JobSet change it made, also when it failed later, and whether it had to write the status |
| Reconciler.AIJobReconciler.ReconcileJobSet | internal/controller/aijob_controller.go:109-129 | Succeeds exactly when the read is answered, no other UID controls the JobSet read, and the write is not needed or is answered and meets the version read; then the JobSet was left as it already agreed, or is what the last write of the log made of the request, and the call goes on with its projection |
| Reconciler.AIJobReconciler.ReconcileStatus | internal/controller/aijob_controller.go:131-141 | Writes exactly when the status differs; succeeds exactly when no write is needed or it is answered and meets the version read, and then the status is the stored one and its write the last of the log |
| Reconciler.HarmlessOutcome | internal/controller/aijob_controller.go:60-106 | Answered, with fresh reads, and however the others move without storing AIJob or JobSet anew, a call waits when told its queue is missing and otherwise fails only over a JobSet under another UID |
| Reconciler.QuietIsAPass | internal/controller/aijob_controller.go:47-107 | With nobody else moving and fresh reads, what a call leaves stored is what the pass of the control loop leaves, so the convergence theorems are about it |
| Reconciler.CountingKeepsBalance | internal/controller/metrics.go:83-112 | With what a call counts, errors by operation keep summing to error results, status observations to success plus waiting, and changes stay within success plus status errors |
| Reconciler.ErrorsByOperation | internal/controller/aijob_controller.go:57-105 | An error is counted under get, queue, jobset or status exactly as that API call is the first that fails |
| Reconciler.ChangesAreLogged | internal/controller/metrics.go:97-101 | A create is counted exactly over a create in the log of writes, an update over an update, and nothing when the JobSet read was already as asked |
| Reconciler.StatusWritesAreLogged | internal/controller/metrics.go:103-112 | A status write is counted exactly when the status differed, and then it is the last of the log |
| GpuCapacity.PodGpuRequest | internal/lab/calculate.go:75-91 | A pod asks for the larger of its containers together and its largest init container, plus overhead |
| GpuCapacity.RequestIsLeast | internal/lab/calculate.go:75-91 | What a pod asks for is the least that, beside its overhead, covers all containers together and each init container |
| GpuCapacity.RequestOneMore | internal/lab/calculate.go:75-91 | A bare pod asks for its overhead, one more container adds its GPUs, one more init container counts as far as it asks for more |
| GpuCapacity.FreeGPUs | internal/lab/calculate.go:11-33 | The loops claim each holding pod's request from its node, clamping at zero each time |
| GpuCapacity.OneMorePod | internal/lab/calculate.go:19-32 | One more pod takes its request from its node as far as there is any, unless it is unbound, done, or on no eligible node |
| GpuCapacity.OneMoreHolder | internal/lab/calculate.go:19-32 | A running pod of one container of q GPUs takes q |
| GpuCapacity.EligibleIff | internal/lab/calculate.go:13-18 | Eligible are the nodes labelled as GPU nodes |
| GpuCapacity.FreeClosedForm | internal/lab/calculate.go:19-32 | Over any free map, each node ends up with max(0, free - held), however overcommitted |
| GpuCapacity.FreeOfEachNode | internal/lab/calculate.go:11-33 | Over a node list with distinct names, the map tells of exactly the eligible nodes, and of each max(0, allocatable - held) |
| GpuCapacity.FreePlusUsed | internal/lab/calculate.go:19-32 | Free and held make up the capacity exactly when the node is not overcommitted |
| GpuCapacity.FreeIgnoresPodOrder | internal/lab/calculate.go:19-32 | The result does not depend on pod order |
| GpuCapacity.CalculateFragmentation | internal/lab/calculate.go:36-58 | Totals, usable part, ratio and sorted node list, in whatever order the map is iterated |
| GpuCapacity.FragmentationIsDetermined | internal/lab/calculate.go:36-58 | The whole document is the same for every iteration order |
| GpuCapacity.PackableIff | internal/lab/calculate.go:49-51 | So many probes fit the free capacity if and only if they are at most UsableFree / target |
| GpuCapacity.UnusableIsRemainders | internal/lab/calculate.go:46-56 | What is not usable is the sum of free mod target |
| GpuCapacity.PlacingKeepsUnusable | internal/lab/calculate.go:46-56 | Placing a probe does not change what is unusable |
| GpuCapacity.RatioExtremes | internal/lab/calculate.go:54-56 | The ratio lies in [0,1]; 0 iff every node is divisible; 1 iff something is free and no node fits a probe |
| GpuCapacity.RatioIs | internal/lab/calculate.go:54-57 | The ratio is the unusable part of all that is free, and 0 when nothing is |
| Placement.AnyPreferenceNeverScoresIff | internal/lab/benchmark.go:303 | The plugin scores every node 0 exactly when neither NVLink nor PCIe is preferred |
| Placement.TopologyReachesThePlugin | internal/controller/aijob_controller.go:266-286 | The annotations written make the plugin require and prefer exactly what the AIJob asks |
| Placement.SpreadingFragments | deploy/scheduler-profiles/baseline.yaml:35-42 | N holders of h spread over N nodes of 2h leave h everywhere and fragmentation 1, however ties fall |
| Placement.SpreadingBlocksTheProbe | internal/lab/benchmark.go:193-223 | The probe of 2h then fits nowhere, and fits once any one holder is released |
| Placement.PackingPreserves | deploy/scheduler-profiles/optimized.yaml:35-42 | Packed, they leave floor(N/2) nodes untouched, fragmentation (N mod 2)/N, and room for the probe |
| Placement.HoldersAlwaysFit | internal/lab/benchmark.go:144-161 | Under either profile the next holder always has a node |
| TopologyPlugin.RequirementIsCapability | internal/plugin/gputopology/plugin.go:162-187 | A node passes exactly when it is at least as capable as required |
| TopologyPlugin.ScoreIsCapability | internal/plugin/gputopology/plugin.go:189-208 | Scores order nodes by capability under a preference and are all 0 without one |
| TopologyPlugin.Scores | internal/plugin/gputopology/plugin.go:189-208 | 100 for an NVLink-capable node; 50 or 80 for a PCIe-only one as NVLink or PCIe is preferred; 0 otherwise |
| TopologyPlugin.Requirements | internal/plugin/gputopology/plugin.go:162-187 | NVLink takes an NVLink-capable node, PCIe either class, and nothing else is asked of any |
| TopologyPlugin.IntentReads | internal/plugin/gputopology/plugin.go:143-148 | The preference and requirement are read off their annotations |
| TopologyPlugin.Plugin.Filter | internal/plugin/gputopology/plugin.go:105-120 | Judges by the requirement captured at PreFilter, whatever the annotations now; counts the node once, as a success under the captured preference and its class or as a failure over a missing node; without state it fails and counts nothing |
| TopologyPlugin.Plugin.Score | internal/plugin/gputopology/plugin.go:123-138 | Scores by the preference captured at PreScore, whatever the annotations now; counts the node once, as Filter does; without state it fails and counts nothing |
| TopologyPlugin.SchedulingCycle | internal/plugin/gputopology/plugin.go:60-138 | The nodes let through are exactly those as capable as demanded before filtering, the chosen one is the most capable when a topology was preferred before scoring, a missing node fails the cycle, and the counters show one evaluation of each node reached and of each node scored, under the preference captured for it |
| TopologyPlugin.CycleFigures | internal/plugin/gputopology/metrics.go:57-79 | In figures: a cycle whose nodes are all there adds a success for each node and for each one let through; a failed one adds one failure and one missing node; and the counters stay in balance |
| TopologyPlugin.Plugin.Observe | internal/plugin/gputopology/metrics.go:57-79 | Exactly one evaluation: a success with its pair of bounded labels, or a failure with one missing node |
| TopologyPlugin.CountedUnder | internal/plugin/gputopology/metrics.go:81-101 | Known preferences and classes are counted under themselves, absent ones as any and missing, all else as other |
| IndexList.ParseIndexes | internal/worker/worker.go:143-156 | The list parses exactly when every item is a non-negative number in range, to the set of those numbers |
| IndexList.ListReadsBack | internal/worker/worker.go:143-156 | Any numbers joined in decimal parse back to their set, exactly when all fit an int |
| IndexList.AtoiOfDecimal | internal/worker/worker.go:149-152 | One number in decimal reads back as itself when it fits an int and is refused otherwise |
| IndexList.SpacesDoNotMatter | internal/worker/worker.go:148-149 | White space around an item does not matter |
| IndexList.SignedDecimals | internal/worker/worker.go:148-167 | A number may carry a sign but must not be negative |
| IndexList.OnlyNumbers | internal/worker/worker.go:148-167 | Nothing, a sign alone, and anything with a character that is no digit are no numbers |
| Worker.ConfigReadsBack | internal/worker/worker.go:104-141 | A command line and index text written from a configuration give it back, in whatever order the indexes are listed, and are refused exactly when the mode is neither of the two, a duration is negative, or an index does not fit an int |
| Worker.SortedIndexes | internal/worker/worker.go:189-193 | The failure indexes in strictly ascending order without repetition |
| Worker.ListingIsUnique | internal/worker/worker.go:189-193 | That list does not depend on map iteration order |
| Worker.Run | internal/worker/worker.go:60-101 | Nothing and exit 2, or one start and one result whose code is the exit code |
| Worker.ExitCodes | internal/worker/worker.go:73-101 | 3 when cancelled or waiting; 10 or 0 on completion as the index is to fail or not; and the outcome of each |
| Worker.EmissionSays | internal/worker/worker.go:183-208 | Kinds, times, outcome, code and parameters of the two records, the failure indexes ascending and complete |
| WorkerReports.ReportObject.ApplyWorkerRecords | internal/lab/worker_reports.go:40-70 | Applies the log up to its first unreadable line, and errs exactly when there is one |
| WorkerReports.ReportObject.ApplyContainerState | internal/lab/worker_reports.go:72-91 | Applies the worker container's states in order |
| WorkerReports.WorkerRuntimeReports | internal/lab/worker_reports.go:17-39 | One report for each pod, in order of pod names; each tells whose it is, what the worker wrote as far as its log can be read, whatever the container's status says of that, and the container's status otherwise; an error exactly when some log is unreadable |
| WorkerReports.ReportTellsLines | internal/lab/worker_reports.go:40-70 | Of any log: the start is that of the last start record read, end and reason those of the last result, the code that of the last result giving one, the parameters those of the last record, and each otherwise the container's |
| WorkerReports.LogReadsBack | internal/lab/worker_reports.go:40-91 | From any record prefix of a worker's output the reader rebuilds the emitted facts; what is not logged comes from the last terminal container state |
| WorkerReports.FailsIffListed | internal/worker/worker.go:90-97 | Uncancelled in complete mode, a worker exits 10 exactly when its index is in the list its report shows |
| WorkerReports.ReportFailsIffListed | internal/lab/worker_reports.go:54-58 | The same of a report returned, whatever the container's status says |
| Snapshots.RelatedWorkloads | internal/lab/cluster.go:135-161 | The nested loops select the related workloads, whatever the set order |
| Snapshots.SelectedAre | internal/lab/cluster.go:135-161 | Exactly the workloads listed that are labelled with, or owned by, the name of one of the run's AIJobs or JobSets |
| Snapshots.SelectionKeepsOrder | internal/lab/cluster.go:147-160 | The selection is every related workload and nothing else, in the order listed |
| Snapshots.ExitTestsAgree | internal/lab/benchmark.go:446-452 | On discovered snapshots cleanup's five-part and the end-to-end four-part exit test accept the same |
| Snapshots.LifecycleFromSnapshot | internal/lab/benchmark.go:498-556 | Pod creation and binding times are true minima, the others those of the last match; differences where both ends are known |
| Snapshots.SubmissionShows | internal/lab/benchmark.go:502-513 | An AIJob listed once was submitted when created and ended when it last became Completed or Failed |
| Snapshots.PodTimesShow | internal/lab/benchmark.go:524-552 | Pod creation and binding are the earliest of the workload's pods, and the latency their difference |
| Snapshots.BelongIff | internal/lab/benchmark.go:514-526 | Which workloads, pods and conditions count |
| Snapshots.PodTimesIgnoreOrder | internal/lab/benchmark.go:529-546 | The minima and the scheduling latency do not depend on pod order |
| Snapshots.SchedulingLatencyNotNegative | internal/lab/benchmark.go:551-554 | Not negative when every pod is bound no earlier than created |
| Snapshots.AdmissionWaitIs | internal/lab/benchmark.go:514-548 | There is a wait exactly when some matching workload is admitted, and it runs from the creation of the last match to the admission of the last match admitted |
| Snapshots.AdmissionWaitNegativeIff | internal/lab/benchmark.go:514-548 | The wait is negative exactly when the last matching workload admitted was so before the last matching workload was created |
| Snapshots.NegativeWaitTakesTwo | internal/lab/benchmark.go:514-548 | With workloads admitted no earlier than created, exactly when in addition the latter comes later in the list and is not admitted yet |
| Snapshots.AdmissionWaitNotNegative | internal/lab/benchmark.go:545-548 | Corollary: it is not negative when workloads are admitted no earlier than created and at most one matches, or the last match is also the last admitted |
| Snapshots.TwoWorkloadsCanWaitNegatively | internal/lab/benchmark.go:514-528 | Two matching workloads that give a wait of -9 |
| Results.ValidateResult | internal/lab/validate.go:31-75 | Reports exactly the problems there are |
| Results.ValidIff | internal/lab/validate.go:31-75 | What a result that passes must have, complete or not |
| Results.EachCheckIsNeeded | internal/lab/validate.go:31-75 | For each check there is a result that fails it and no other |
| Evidence.ExpectedObserved | internal/lab/evidence.go:215-226 | True exactly when everything expected was observed |
| Evidence.Collect | internal/lab/evidence.go:76-160 | The manifest lists as missing exactly the artifacts whose calls failed and unmet expectations, and as warnings exactly the metrics; it is complete exactly when nothing is missing; the caller gets an error exactly when it is incomplete, not written, or there is no directory; the cluster is not touched |
| Evidence.MissingNothing | internal/lab/evidence.go:76-151 | Nothing is missing exactly when every call before the metrics was answered and all that is expected was observed |
| Evidence.UnwrittenAre | internal/lab/evidence.go:88-114 | Listed as missing are exactly the artifacts whose call was not answered |
| Evidence.CompleteHas | internal/lab/evidence.go:88-151 | A complete bundle has the eight resources and the worker reports, and all that was expected was observed |
| Evidence.CollectionCalls | internal/lab/evidence.go:76-190 | The calls a collection makes before the metrics, when all are answered |
| Evidence.MetricsOnlyWarn | internal/lab/evidence.go:116-141 | Whatever becomes of the two metrics calls, the same is missing and the same bundles succeed |
| LabCluster.Lab.DeleteAIJob | internal/lab/benchmark.go:204-211 | The log keeps the run ID the deleted AIJob really carried |
| RunDocument.AllObservedIff | internal/lab/benchmark.go:257-274 | Everything expected is observed exactly when the scenario reached its end, unless a baseline profile's probe was meant to fit |
| RunDocument.ExpectedIs | internal/lab/benchmark.go:257-266 | A baseline run has to show that its probe was unschedulable at first and completed, any other only the latter |
| BenchmarkRun.Runner.Release | internal/lab/benchmark.go:193-215 | The one deletion of a scenario is that of its own first holder; the recovery shows exactly how far it got, with the time read before the deletion |
| BenchmarkRun.Runner.SubmitHolders | internal/lab/benchmark.go:145-161 | On every path exactly the holders reached are listed, each before it is created; it fails exactly at the first call not answered, or for want of a free name |
| BenchmarkRun.Runner.Scenario | internal/lab/benchmark.go:140-241 | It stops exactly at its first call that is not answered, and on every path the document is exactly that of this course: workloads, fragmentation of the snapshot taken, outcomes, recovery, makespan; at the end the profile is in force |
| RunDocument.RecoveryShows | internal/lab/benchmark.go:193-236 | Of every result written: each part of the recovery is shown exactly when the run got there, and the latency is the time from release to recovery |
| RunDocument.MakespanShows | internal/lab/benchmark.go:238-240 | The makespan runs from the end of the switch to the end of a finished scenario |
| RunDocument.OutcomesShow | internal/lab/benchmark.go:190-236 | The outcome shown of each name: completed, completed after release, released, running, or none |
| RunDocument.WorkloadsShow | internal/lab/benchmark.go:145-176 | A finished run has submitted three holders of two GPUs and a probe of four |
| RunDocument.IdentityShows | internal/lab/benchmark.go:109-131 | Identity and time of the document, and what it lists as missing |
| RunDocument.ScenarioCalls | internal/lab/benchmark.go:140-241 | A scenario that reaches its end has made all its calls, each answered |
| BenchmarkRun.Runner.CollectResult | internal/lab/benchmark.go:456-496 | Succeeds exactly when snapshot and worker logs are answered; then recorded outcomes stay and every other workload is running; otherwise nothing changes |
| BenchmarkRun.Runner.Cleanup | internal/lab/benchmark.go:428-454 | Deletes only AIJobs of this run; succeeds exactly when the list and every deletion are answered and one of the polls allowed, after none that was not answered, finds all AIJobs vanished and no JobSet, Job or Pod of the run; then none is left |
| LabCluster.FiveListsEmptyIff | internal/lab/benchmark.go:446-452 | The five lists of a poll are empty exactly when no AIJob is left and no JobSet, Job or Pod is found: then no workload is related to anything |
| RunDocument.CleansFindsNothing | internal/lab/benchmark.go:444-453 | A cleanup that goes well has, at its last poll, found no JobSet, no Job and no Pod of the run, every AIJob left having vanished |
| BenchmarkRun.Runner.Conclude | internal/lab/benchmark.go:117-131 | Final snapshot and evidence go well exactly when their calls do and everything expected was observed, and the document says so, complete exactly when nothing is missing |
| BenchmarkRun.Runner.RunOne | internal/lab/benchmark.go:103-241 | On every path evidence comes before cleanup, every deleted AIJob carried this run's ID, and the result written is the document of the run's course; the run succeeds exactly when scenario, writing and cleanup went well, and then its result is complete exactly when the calls of snapshot and evidence are answered; and the result passes validation exactly when the run did not break between its first holder and the snapshot |
| BenchmarkRun.Runner.SwitchProfile | internal/lab/benchmark.go:356-388 | Success means the scheduler's configuration is the profile's and its template bears the time of the switch; no AIJob is touched; it fails without a call when the profile cannot be read, and otherwise exactly at the first call not answered |
| BenchmarkRun.SwitchRestartsIff | internal/lab/benchmark.go:380-387 | A further switch changes the template, and so restarts the scheduler, exactly when the clock has moved on since the last |
| BenchmarkRun.RestartedIs | internal/lab/benchmark.go:378-384 | The mark goes under its own key and every other annotation stays |
| BenchmarkRun.Runner.Restore | internal/lab/benchmark.go:405-425 | Success means configuration and annotations are those captured; it fails exactly at the first call not answered |
| BenchmarkRun.Runner.RunProfiles | internal/lab/benchmark.go:93-100 | There is one run for each profile and repetition on every path, also after failures; every file is the document of one of them and every deleted AIJob theirs; success means every file was written in order and no AIJob of any run is left |
| BenchmarkRun.PlanAt | internal/lab/benchmark.go:93-100 | The plan is each profile in turn, and of each the repetitions from 1 on |
| BenchmarkRun.Runner.Run | internal/lab/benchmark.go:77-101 | Once the scheduler is captured there is one run for each profile and repetition and restoring is attempted last; success means the scheduler is as before, all results are written and no AIJob of any of the runs is left; in a furnished lab where every call is answered and descendants are collected within the polls allowed, labctl's profiles succeed with every result complete |
| RunDocument.CompleteIff | internal/lab/benchmark.go:117-131 | A result is complete exactly when scenario, final snapshot and evidence went well, which is when nothing is missing |
| RunDocument.FinishedIsCompleteIff | internal/lab/benchmark.go:117-131 | A run that reached its end, and so one that succeeds, has a complete result exactly when the calls of its final snapshot and of its evidence, the metrics apart, are answered and its profile expects what it can observe |
| RunDocument.WrittenResultIsValidIff | internal/lab/validate.go:31-75 | What a run of labctl's profiles writes passes exactly when the run did not break between its first holder and the snapshot; a complete result always does |
| RunDocument.BrokeHoldingIffFirstFault | internal/lab/benchmark.go:145-169 | A run whose names are free breaks there exactly when its first unanswered call is a holder's creation, the wait for one, or the snapshot |
| RunDocument.BrokeHoldingShows | internal/lab/benchmark.go:150-172 | Seen from the document: it then lists a workload and its fragmentation is that of no snapshot |
| BenchmarkRun.SoundFilesAreValid | cmd/labctl/main.go:171-174 | Every file a benchmark over labctl's profiles leaves passes when complete, and in any case exactly when it lists no workload or its fragmentation is that of a snapshot |
| FaultyRuns.BreaksAtFirstHolder | internal/lab/benchmark.go:150-161 | A run refused exactly the creation of its first holder writes a result that does not pass |
| FaultyRuns.LosesItsEvidence | internal/lab/benchmark.go:127-132 | A run refused exactly its evidence directory succeeds with an incomplete result |
| FaultyRuns.LosesItsSnapshot | internal/lab/benchmark.go:124-126 | A run refused exactly its final snapshot succeeds with an incomplete result |
| Sorting.SortedIsUnique | internal/lab/calculate.go:53 | Sorting forgets the order in which strings were gathered |
| Sorting.StringLeIs | internal/lab/worker_reports.go:38 | The order of names is lexicographic |

## Left out

- Several AIJobs at once, namespaces, finalizers and deletion timestamps of AIJobs and JobSets in the control loop.
- A controller-runtime whose SetControllerReference compares owners by kind and name only, and unset optional fields that
  escape the immutability rule of the AIJob schema.
- Sharing between slices: the copy of the old conditions before a missing queue is reported is implicit in value
  sequences.
- The nil checks on metrics, histograms and durations: counters only.
- Container environment, pull policy and restart policy of the worker template.
- BenchmarkRun.Runner.SwitchProfile: the reasons for which a profile's file cannot be read are not modelled.
- BenchmarkRun.Runner.CollectResult: unschedulable count, placements and component versions are not modelled; worker reports and lifecycle are modelled on their own in WorkerReports and Snapshots.
- Evidence.Collect: file contents, paths and the sorting of the missing and warning lists are not modelled; a file is there or not.
- Worker.ParseConfig: flag and duration parsing are taken as done; the error texts are not modelled.
- UnschedulableCount, filterEvents, simulatedGPUQuota, safeName, verifyLifecycle and the end-to-end runner: search loops
  and branching checks that would add easy members.
- The exercise runner, device plugin, manifests, command wiring, Kubernetes clients, polling intervals and encodings.
- 64-bit overflow of GPU sums, which needs quantities no cluster has; the range of parsed indexes is modelled.
