# Azkaban in Dafny

A model of the logic of Azkaban, a batch workflow scheduler, with proofs of what it keeps, promises and
sometimes breaks. `dafny verify dfyconfig.toml` checks everything.

## What is modelled

**Running a flow** (the `Flow*` files not named below, and `SingleJob`). A flow is a graph of jobs. A job without
dependencies is one object; a job with dependencies is three: the job, the group of its dependencies, and the
composition that runs the group before the job. Objects are shared between all jobs that depend on them. `execute`
and `completed` callbacks run on many threads, so a run is modelled as a sequence of atomic steps: entering
`execute`, loading a job, the end of its thread, one turn of a group's loop over its children, one callback, and
separately the two reads and two compare-and-sets of a group's notification. Any pending step may come next.
`FlowThreads` shows that the call stacks of the Java threads are covered by this, so what holds in all runs holds
for them. What is said to be possible is shown of call stacks that never interrupt each other, so that no thread
meets a monitor held by another (`FlowSchedules`). `FlowObjects` holds the classes with their fields; each method
that takes part in a run is proved to be the step, or the step function, that runs are made of. `FlowInvariant`
states what holds throughout, the `Flow...Steps` files prove that each kind of step keeps it, and `FlowTheorems`,
`FlowOutcome`, `FlowTermination`, `FlowRestart`, `FlowReset`, `FlowExact`, `FlowIgnored` and `FlowOutputs` draw the
conclusions: for all graphs without cycles (most of them for all graphs), all schedules and all outcomes of the jobs.

**Building and writing flows** (`NameOrder`, `FlowGraph`, `FlowBuilding`, `FlowCreation`, `FlowSerialization`,
`JobDescriptors`, `FlowManagers`, `FlowCache`). Job descriptors become flows through a memo, flows become
executable objects through a map of shared entries, and executable flows are written as jobs, root and
dependencies. The managers keep all flows, sort the root jobs into folders, hand out ids and cache executions.

**Properties** (`PropsResolve`, `PropsChain`). Substitution of variables by repeated rewriting of the leftmost
reference, down to characters; and layered properties, as a chain of objects that behaves as one map.

**Graphs** (`WorkflowFlow`, `GraphDisabling`). Looking for cycles and assigning levels; switching off all that
the selected jobs depend on.

**Scheduling** (`ScheduledJobs`, `ScheduleSteps`, `ScheduleManagers`, `EventConsumer`). Next run times and the
hour window, the queue next to the id map, and the messages that trigger event jobs.

## Findings

Paths are below `azkaban/src/java/azkaban`.

- That no transitive dependent of a failed job ever starts is not true once jobs may be marked as completed
  (`flow/ComposedExecutableFlow.java:160-163`). `FlowMarked` gives a flow of four jobs and
  `FlowExact.StartsDespiteIff` says exactly when it happens.
- `resetFailedFlows` turns a job that was set to IGNORED into one that will run
  (`flow/MultipleDependencyExecutableFlow.java:90-99`). `FlowIgnored.ForgetsIff` says exactly when this can happen,
  `FlowIgnored.ResetForgetsIff` exactly when it has, and `FlowIgnored.IgnoredRootForgotten` gives the smallest flow.
- A job that is cancelled while it runs can later count as SUCCEEDED, although its callers hear FAILED
  (`flow/IndividualJobExecutableFlow.java:242-245`). `SingleJob.CancelledCanSucceedIff` shows that for a job not yet
  running the failure is final.
- `workflow.Flow` checks for `null` dependencies to find repeated entries, but a new `FlowNode` has an empty
  set (`workflow/flow/FlowNode.java:34-43`). The code is followed: any flow built with `addDependencies` is
  reported as invalid (`WorkflowFlow.BuiltFlowIsValidIff`). What `validateFlow` says about cycles and levels is
  proved apart from that.
- Only a reference back to the key itself is noticed as circular (`app/PropsUtils.java:130-134`). On any other
  cycle that the expansion comes to, the loop never ends; `PropsResolve.CyclesRun` says exactly when.
- A message is spent on the first open criterion it meets (`scheduler/EventConsumerManager.java:155-184`), so a queue
  that could be matched may not trigger. `EventConsumer.TriggersIff` says exactly which queues do, and
  `EventConsumer.GreedyIsRightIff` that every set of two or more criteria has a queue that is missed.
- A cache that has outgrown its size never comes back to it (`FlowCache.NeverShrinks`): each put evicts one entry
  at most (`flow/CachingFlowManager.java:56-74`). `FlowCache.OutgrownIff` says exactly when it has,
  `FlowCache.SizeIs` by how much, and `FlowCache.TwoOutgrowOne` gives the shortest run.
- After its last run a job without a period leaves the queue but stays in the id map: the runner's own
  `removeScheduledJob` does not touch the map (`scheduler/ScheduleManager.java:299-301`). `ScheduleSteps.MissingIff`
  says exactly which jobs of the map are not queued, and `ScheduleSteps.RunsOnce` gives a run.

## Model

| member | source | states |
|---|---|---|
| `FlowObjects.IndividualJobExecutableFlow.Execute` | azkaban/src/java/azkaban/flow/IndividualJobExecutableFlow.java:105-146 | null props count as empty; refused, with nothing changed, exactly if the job holds other props and is not COMPLETED; else what each status becomes, whether the callback is queued or answered and with which verdict; and these are the steps that runs are built from |
| `FlowObjects.IndividualJobExecutableFlow.LoadFailed` | azkaban/src/java/azkaban/flow/IndividualJobExecutableFlow.java:148-176 | in any state of a run, what this does to the job and the calls it leaves to make are the failing Load step; the queue stays as it was |
| `FlowObjects.IndividualJobExecutableFlow.Finish` | azkaban/src/java/azkaban/flow/IndividualJobExecutableFlow.java:183-245 | a job that ended well is SUCCEEDED and returns exactly what its thread generated, any other is FAILED and returns nothing; props and queue stay, and the queue is what is left to call |
| `FlowObjects.IndividualJobExecutableFlow.Cancel` | azkaban/src/java/azkaban/flow/IndividualJobExecutableFlow.java:333-352 | a job at its end stays as it is with nobody to call; any other fails, returns nothing and hands over its whole queue |
| `FlowObjects.IndividualJobExecutableFlow.Reset` | azkaban/src/java/azkaban/flow/IndividualJobExecutableFlow.java:371-382 | a running job refuses and stays as it is, any other is READY with no props, no return props and an empty queue |
| `FlowObjects.IndividualJobExecutableFlow.MarkCompleted` | azkaban/src/java/azkaban/flow/IndividualJobExecutableFlow.java:385-397 | a job that does not run becomes COMPLETED with empty props on both sides; a running one refuses |
| `FlowObjects.ComposedExecutableFlow.Execute` | azkaban/src/java/azkaban/flow/ComposedExecutableFlow.java:130-168 | refused as for the job; a COMPLETED or SUCCEEDED flow answers success, a FAILED one failure, and IGNORED forgets the callback: the default branch of the switch |
| `FlowObjects.ComposedExecutableFlow.DependeeCompleted` | azkaban/src/java/azkaban/flow/ComposedExecutableFlow.java:367-395 | in any state of a run this is the step that delivers the callback: after the group's success the job is to be executed with the flow's props overridden by the group's output and nothing changes yet; after its failure the flow fails and hands over its queue |
| `FlowObjects.ComposedExecutableFlow.MarkCompleted` | azkaban/src/java/azkaban/flow/ComposedExecutableFlow.java:230-243 | a flow that does not run becomes COMPLETED with empty props; the queue and the wrapped job stay as they are |
| `FlowObjects.ComposedExecutableFlow.Settle` | azkaban/src/java/azkaban/flow/ComposedExecutableFlow.java:337-348 | in any state of a run this is the step that delivers the job's callback: the verdict becomes the status and the queue is handed over |
| `FlowObjects.ComposedExecutableFlow.GetReturnProps` | azkaban/src/java/azkaban/flow/ComposedExecutableFlow.java:285-287 | key by key: the job's own value of a key, else the group's, and no other key; this is the output that groups merge in runs |
| `FlowObjects.ComposedExecutableFlow.Reset` | azkaban/src/java/azkaban/flow/ComposedExecutableFlow.java:207-227 | resets itself and the job it wraps, or neither when it runs; the answer tells whether both could be reset |
| `FlowObjects.GroupedExecutableFlow.Execute` | azkaban/src/java/azkaban/flow/GroupedExecutableFlow.java:174-213 | refused as for the job; IGNORED answers success without changing the status |
| `FlowObjects.GroupedExecutableFlow.UpdateState` | azkaban/src/java/azkaban/flow/GroupedExecutableFlow.java:249-281 | a failed child makes the group FAILED with empty return props; else, if all are done, it is SUCCEEDED and returns each key any child returns with the value of the last such child, and no other key; else nothing changes |
| `FlowObjects.GroupedExecutableFlow.CompareAndSet` | azkaban/src/java/azkaban/flow/GroupedExecutableFlow.java:443-455 | in any state of a run, the compare-and-set after a status was read, and the calls or the second read it leaves to make, are the step of that name; only the first caller gets calls to make |
| `FlowObjects.GroupedExecutableFlow.Reset` | azkaban/src/java/azkaban/flow/GroupedExecutableFlow.java:290-309 | a group that does not run becomes new, with its right to notify restored |
| `FlowObjects.MultipleDependencyExecutableFlow.constructor` | azkaban/src/java/azkaban/flow/MultipleDependencyExecutableFlow.java:51-57 | the composed flow wraps the very job given as depender, the dependees given become the group's flows, and both inner objects are new |
| `FlowObjects.MultipleDependencyExecutableFlow.MarkCompleted` | azkaban/src/java/azkaban/flow/MultipleDependencyExecutableFlow.java:102-105 | changes the composed flow alone, to COMPLETED with empty props, or nothing while it runs; a new flow thereby becomes a marked one, from which runs may start |
| `FlowObjects.MultipleDependencyExecutableFlow.Reset` | azkaban/src/java/azkaban/flow/MultipleDependencyExecutableFlow.java:90-99 | a composed flow that does not run becomes new with the job it wraps, unless that runs; the group becomes new unless it runs; this is the reset that resetFailedFlows is reasoned about with |
| `FlowRuns.InvLaunch` | azkaban/src/java/azkaban/flow/ComposedExecutableFlow.java:130-178 | executing the root on flows at rest establishes the invariant of runs: callbacks conserved, verdicts true, props agreeing, every group that is finished about to notify |
| `FlowRuns.InvNext` | azkaban/src/java/azkaban/flow/GroupedExecutableFlow.java:435-457 | every step of every thread keeps that invariant, also the group's status reads outside the lock before the compare-and-set |
| `FlowRuns.InvRun` | azkaban/src/java/azkaban/flow/ComposedExecutableFlow.java:367-395 | the invariant holds in every state of every run, on every dependency graph and schedule |
| `FlowTheorems.StartsAfterDependencies` | azkaban/src/java/azkaban/flow/ComposedExecutableFlow.java:367-381 | when a job's thread starts, every direct dependency is SUCCEEDED or COMPLETED, and it had not started before |
| `FlowTheorems.StartsAtMostOnce` | azkaban/src/java/azkaban/flow/IndividualJobExecutableFlow.java:111-146 | however many paths reach a job, its thread starts at most once |
| `FlowTheorems.NoStartAboveUnfinished` | azkaban/src/java/azkaban/flow/GroupedExecutableFlow.java:249-281 | along a path without completed jobs in between, a job has not started while the other end is not done |
| `FlowTheorems.NoStartAboveFailure` | azkaban/src/java/azkaban/flow/GroupedExecutableFlow.java:256-259 | in particular no transitive dependent of a failed flow has started, unless a job between them was marked as completed |
| `FlowRestart.NoStartAboveFailureUnmarked` | azkaban/src/java/azkaban/flow/ComposedExecutableFlow.java:230-243 | the same under a condition that can be checked before the run |
| `FlowExact.Necessary` | azkaban/src/java/azkaban/flow/ComposedExecutableFlow.java:160-163 | if a job starts although another failed, both were live before the run and every dependency path between them goes through a completed job |
| `FlowExact.Sufficient` | azkaban/src/java/azkaban/flow/ComposedExecutableFlow.java:160-163 | under those conditions threads with call stacks can run so, even if none ever interrupts another: all goes well but one job's thread is kept waiting, and that job then fails |
| `FlowExact.StartsDespiteIff` | azkaban/src/java/azkaban/flow/ComposedExecutableFlow.java:160-163 | from any flows a run may start from, also after a reset: threads can start a job although another one fails exactly if both are live and no dependency path between them avoids the jobs marked as completed, whether or not threads may interrupt each other |
| `FlowMarked.DependentOfAFailedJobStarts` | azkaban/src/java/azkaban/flow/ComposedExecutableFlow.java:160-163 | a concrete flow of four jobs in which threads break the rule: c depends on a through b, b was marked, a fails and c starts |
| `FlowTheorems.PropsAgree` | azkaban/src/java/azkaban/flow/ComposedExecutableFlow.java:137-150 | no run meets differing props: the exception is unreachable, every executed object holds the root's props, and only a wrapped job holds them overridden by its dependencies' merged output |
| `FlowOutputs.GoodEndStays` | azkaban/src/java/azkaban/flow/IndividualJobExecutableFlow.java:242-245 | after the step in which a job's thread ends well the job is SUCCEEDED in every later state, and its return props are exactly that thread's output |
| `FlowOutputs.FailedIff` | azkaban/src/java/azkaban/flow/IndividualJobExecutableFlow.java:148-197 | in every state of every run a job is FAILED exactly if its thread ended badly or it could not be loaded |
| `FlowOutputs.SucceededIff` | azkaban/src/java/azkaban/flow/IndividualJobExecutableFlow.java:242-245 | and SUCCEEDED exactly if it had been before the run or its thread ended well |
| `FlowOutputs.VerdictByThreads` | azkaban/src/java/azkaban/flow/ComposedExecutableFlow.java:305-317 | told by the threads alone: at the end the caller has heard one verdict, SUCCEEDED exactly if no thread ended badly and no load failed |
| `FlowOutputs.ReturnsWhatThreadsLeft` | azkaban/src/java/azkaban/flow/IndividualJobExecutableFlow.java:242-245 | what a job returns is what its last thread left: the output after a good end, nothing after a bad one, what it held at the start if none ended |
| `FlowOutputs.OutputAt` | azkaban/src/java/azkaban/flow/ComposedExecutableFlow.java:285-287 | getReturnProps key by key, for any state of the two parts: the job's own value, else the group's |
| `FlowOutputs.ReturnsWhatIsGiven` | azkaban/src/java/azkaban/flow/GroupedExecutableFlow.java:268-276 | for every key a flow that is done returns what its job's thread left, else what the last dependency to give the key gave, down through all dependencies |
| `FlowOutputs.StartedProps` | azkaban/src/java/azkaban/flow/ComposedExecutableFlow.java:367-381 | a job that has started holds for every key the value given by the last of its dependencies that gives the key, told by the threads of the jobs, and the root's value where none does |
| `FlowOutcome.RunningRootHasStep` | azkaban/src/java/azkaban/flow/GroupedExecutableFlow.java:218-236 | while the root is running some step is enabled: no run gets stuck |
| `FlowOutcome.NothingRuns` | azkaban/src/java/azkaban/flow/GroupedExecutableFlow.java:435-457 | a state with nothing pending has no running object and no finished group that has not notified |
| `FlowOutcome.AtMostOnce` | azkaban/src/java/azkaban/flow/GroupedExecutableFlow.java:443-446 | at any time every callback has been handed out at most once and completed no more often |
| `FlowOutcome.ExactlyOnceAtTheEnd` | azkaban/src/java/azkaban/flow/ComposedExecutableFlow.java:305-317 | when a run has ended, every callback handed to an execute call has been completed exactly once |
| `FlowOutcome.SuccessIsFinal` | azkaban/src/java/azkaban/flow/ComposedExecutableFlow.java:337-348 | if the caller hears SUCCEEDED then no job has failed or is running |
| `FlowOutcome.FailureIsReal` | azkaban/src/java/azkaban/flow/ComposedExecutableFlow.java:383-391 | if the caller hears FAILED then some job has failed |
| `FlowOutcome.VerdictAtTheEnd` | azkaban/src/java/azkaban/flow/ComposedExecutableFlow.java:305-317 | a run that has ended has told the caller SUCCEEDED or FAILED, once, and SUCCEEDED exactly if no executed job failed |
| `FlowTermination.StepSpends` | azkaban/src/java/azkaban/flow/GroupedExecutableFlow.java:218-236 | every step leaves strictly less work by a measure on the state |
| `FlowTermination.RunsAreFinite` | azkaban/src/java/azkaban/flow/ComposedExecutableFlow.java:130-189 | every run has at most as many steps as the work it starts with, whatever the schedule |
| `FlowThreads.Simulates` | azkaban/src/java/azkaban/flow/GroupedExecutableFlow.java:218-236 | a step of the Java call stacks, where a thread finishes a call before it returns, is a step of the unordered model |
| `FlowThreads.ThreadRunsAreRuns` | azkaban/src/java/azkaban/flow/IndividualJobExecutableFlow.java:463-492 | so every execution with call stacks is one of the runs the theorems speak of |
| `FlowThreads.OuterCallsWait` | azkaban/src/java/azkaban/flow/ComposedExecutableFlow.java:310-316 | whatever a thread does, the calls at the bottom of its stack wait unchanged until everything above them is done |
| `FlowFrame.DeliveriesInOrder` | azkaban/src/java/azkaban/flow/IndividualJobExecutableFlow.java:463-481 | every callback of a list is told the verdict, in the order of the list |
| `FlowFrame.TriesInOrder` | azkaban/src/java/azkaban/flow/GroupedExecutableFlow.java:218-236 | a group turns to each of its children once, in order |
| `FlowSchedules.Advance` | azkaban/src/java/azkaban/flow/GroupedExecutableFlow.java:218-236 | the thread that went last, or any if that one is through, can do its next task, and both models move alike |
| `FlowSchedules.RestingFlowsRun` | azkaban/src/java/azkaban/flow/ComposedExecutableFlow.java:130-189 | flows at rest can always be executed to an end by threads with call stacks, none of which interrupts another |
| `FlowRestart.FreshIsStartable` | azkaban/src/java/azkaban/flow/IndividualJobExecutableFlow.java:437-452 | new flows, with any marks from markCompleted and any jobs set to IGNORED, satisfy what runs start from |
| `FlowRestart.OnlyReadyJobsStart` | azkaban/src/java/azkaban/flow/IndividualJobExecutableFlow.java:128-142 | only jobs that were READY when the root was executed start |
| `FlowRestart.OnlyReadyFlowsStart` | azkaban/src/java/azkaban/flow/ComposedExecutableFlow.java:153-168 | and only if the flow they belong to was READY too |
| `FlowRestart.MarksStay` | azkaban/src/java/azkaban/flow/ComposedExecutableFlow.java:230-243 | a composed flow found COMPLETED during a run was so from the start |
| `FlowReset.ExecutableFlows.Reset` | azkaban/src/java/azkaban/flow/MultipleDependencyExecutableFlow.java:90-99 | rewrites the flow of one job, in place, as reset does |
| `FlowReset.ExecutableFlows.ResetFailedFlows` | azkaban/src/java/azkaban/flow/Flows.java:74-89 | the recursion terminates and resets exactly the failed flows that the given one reaches, shared ones as if once, and leaves every other as it was |
| `FlowReset.ResetExactly` | azkaban/src/java/azkaban/flow/Flows.java:74-89 | after a run at rest every failed flow becomes new in all its parts, whatever these had been, and no other flow changes |
| `FlowReset.ResetMakesStartable` | azkaban/src/java/azkaban/flow/Flows.java:74-89 | after a run at rest and a reset nothing has failed, and the flow may be executed again with the same props |
| `FlowReset.ResetKeepsSuccess` | azkaban/src/java/azkaban/flow/Flows.java:74-89 | a reset changes no flow that is SUCCEEDED or COMPLETED and no job that succeeded |
| `FlowReset.RestartSkipsSuccess` | azkaban/src/java/azkaban/flow/Flows.java:74-89 | the second run starts only jobs that had not succeeded in the first |
| `FlowIgnored.ResetForgetsIff` | azkaban/src/java/azkaban/flow/MultipleDependencyExecutableFlow.java:90-99 | at the end of any run a job that is IGNORED or COMPLETED keeps its status through the reset exactly if its flow has not failed, which it has exactly if it was executed and a dependency failed |
| `FlowIgnored.ForgetsIff` | azkaban/src/java/azkaban/flow/Flows.java:74-89 | seen before the run, from any flows it may start from: threads can bring an ignored job to READY, by a run and the reset, exactly if a live path leads through it down to a job that is READY, whether or not threads may interrupt each other |
| `FlowIgnored.IgnoredRootForgotten` | azkaban/src/java/azkaban/flow/Flows.java:74-89 | the smallest such flow: an ignored root over one job |
| `FlowIgnored.ResetKeepsDone` | azkaban/src/java/azkaban/flow/Flows.java:74-89 | after any run the reset changes no job that is SUCCEEDED or COMPLETED, if no wrapped job was set to COMPLETED beforehand, apart from its flow |
| `SingleJob.EventKeeps` | azkaban/src/java/azkaban/flow/IndividualJobExecutableFlow.java:333-352 | execute, cancel, a failed load and each move of a thread keep the books of accepted, queued, carried and completed callbacks balanced |
| `SingleJob.ExecuteTells` | azkaban/src/java/azkaban/flow/IndividualJobExecutableFlow.java:105-146 | an execute with other props is refused and changes nothing, unless the job is COMPLETED; any other callback is accepted, queued while the job is not at its end and else completed on the spot, and only the first of them makes a thread load the job |
| `SingleJob.ThreadTells` | azkaban/src/java/azkaban/flow/IndividualJobExecutableFlow.java:148-245 | a load that fails and the end of the run give the job its status and announce it to those queued at that moment; only a good end leaves an output |
| `SingleJob.CompletedAtMostOnce` | azkaban/src/java/azkaban/flow/IndividualJobExecutableFlow.java:111-174 | however calls, cancellations and threads interleave, no callback is completed more often than it was accepted |
| `SingleJob.CompletedExactlyOnce` | azkaban/src/java/azkaban/flow/IndividualJobExecutableFlow.java:187-245 | with no thread pending every accepted callback has been completed exactly as often as accepted, also when a cancelled job finished afterwards |
| `SingleJob.FailedCanSucceedIff` | azkaban/src/java/azkaban/flow/IndividualJobExecutableFlow.java:187-245 | in any run, a job that has FAILED can still end SUCCEEDED exactly if a thread that loads or runs it is alive |
| `SingleJob.CancelledCanSucceedIff` | azkaban/src/java/azkaban/flow/IndividualJobExecutableFlow.java:333-352 | in any run, cancelling a job that is READY or RUNNING fails it, and it can still end SUCCEEDED exactly if it was RUNNING |
| `SingleJob.CancelTells` | azkaban/src/java/azkaban/flow/IndividualJobExecutableFlow.java:333-352 | cancelling changes nothing about a job at its end; of any other exactly the queued callbacks, in their order, are to be told FAILED |
| `SingleJob.AnnouncementTells` | azkaban/src/java/azkaban/flow/IndividualJobExecutableFlow.java:463-481 | those queued when the thread ended are told, in order, the status the job has when the announcement is made |
| `FlowBuilding.DescriptionIsUnique` | azkaban/src/java/azkaban/flow/Flows.java:49-66 | a job has one flow only that unfolds to its dependencies, so sharing through the memo cannot change a flow |
| `FlowBuilding.Flows.BuildLegacyFlow` | azkaban/src/java/azkaban/flow/Flows.java:32-71 | the memoised recursion terminates, returns the flow that describes the job, and adds to the memo exactly the jobs it reaches without touching older entries |
| `FlowCreation.Executable.MultipleDependency` | azkaban/src/java/azkaban/flow/GroupedExecutableFlow.java:65-81 | the children of a dependent flow are its dependees sorted by name, around the given depender |
| `FlowCreation.SortTwice` | azkaban/src/java/azkaban/flow/GroupedFlow.java:45-58 | sorting the children again, as the second group does, changes nothing and loses nobody |
| `NameOrder.NotAfterIff` | azkaban/src/java/azkaban/flow/GroupedExecutableFlow.java:65-76 | the order of the children is that of compareTo: a prefix first, else the first character that differs decides |
| `FlowCreation.Overrides.CreateIndividual` | azkaban/src/java/azkaban/flow/IndividualJobFlow.java:60-72 | an entry that exists leads to the exception, a missing one is created and put |
| `FlowCreation.Overrides.CreateGrouped` | azkaban/src/java/azkaban/flow/GroupedFlow.java:89-103 | dependees that have an entry are shared, others created; the nested calls never meet the exception |
| `FlowCreation.Overrides.CreateMultiple` | azkaban/src/java/azkaban/flow/MultipleDependencyFlow.java:73-91 | the exception is raised exactly when the depender had an entry before the call |
| `FlowCreation.Overrides.CreateExecutableFlow` | azkaban/src/java/azkaban/flow/MultipleDependencyFlow.java:73-91 | one object per job reached, new unless it had one, wired to the entries of its dependencies, no object working for two jobs; from empty overrides the exception cannot occur |
| `FlowCreation.SameObject` | azkaban/src/java/azkaban/flow/GroupedFlow.java:93-97 | whatever way one goes down from parents to children, the object met is the single entry of its name |
| `FlowCreation.InstanceIsStartable` | azkaban/src/java/azkaban/flow/ImmutableFlowManager.java:113-124 | a new instance is an acyclic graph of new flows, which is what the runs above start from |
| `FlowSerialization.AddMissing` | azkaban/src/java/azkaban/serialization/GroupedEFSerializer.java:67-76 | the first map that has a job decides |
| `FlowSerialization.AddDependencies` | azkaban/src/java/azkaban/serialization/GroupedEFSerializer.java:92-105 | entries are added, and sets of a common key united |
| `FlowSerialization.SerializeIndividual` | azkaban/src/java/azkaban/serialization/IndividualJobEFSerializer.java:35-74 | a lone job: its name, status, own props and return props, itself as its root, with no dependencies |
| `FlowSerialization.SerializeGrouped` | azkaban/src/java/azkaban/serialization/GroupedEFSerializer.java:44-112 | jobs first come first served, roots in order, dependencies united |
| `FlowSerialization.SerializeComposed` | azkaban/src/java/azkaban/serialization/ComposedEFSerializer.java:50-128 | both halves merged, and every root of the depender made to depend on every root of the group |
| `FlowSerialization.PartsMerge` | azkaban/src/java/azkaban/serialization/GroupedEFSerializer.java:53-112 | merging the parts of shared children gives the jobs and dependencies of all they reach together |
| `FlowSerialization.Serialize` | azkaban/src/java/azkaban/serialization/DefaultExecutableFlowSerializer.java:26-41 | serialising an executable flow gives the state of exactly the jobs it reaches, its name as the only root, and their dependencies as the descriptors have them |
| `FlowSerialization.SerialShows` | azkaban/src/java/azkaban/serialization/IndividualJobEFSerializer.java:46-63 | in any state of the objects the entries are exactly those of the jobs reached, each with its own object's status, props and return props |
| `FlowSerialization.SerialIsClosed` | azkaban/src/java/azkaban/serialization/ComposedEFSerializer.java:86-122 | every name in root or dependencies is among the jobs, and a job's entry equals its descriptor's dependencies |
| `FlowSerialization.BuildAndSerialize` | azkaban/src/java/azkaban/flow/Flows.java:32-71 | building, instantiating and serialising gives back the dependency relation of the jobs reachable from the root, all of them new |
| `PropsResolve.EscapedIsRead` | azkaban/src/java/azkaban/app/PropsUtils.java:141-144 | escaping backslashes and dollar signs is undone by appendReplacement, for every text |
| `PropsResolve.FindIsLeftmost` | azkaban/src/java/azkaban/app/PropsUtils.java:118-127 | in any text the search finds the leftmost stretch that is a dollar sign, an opening brace, a name of letters, digits, underscores and dots, and a closing brace, or there is none |
| `PropsResolve.FindFirst` | azkaban/src/java/azkaban/app/PropsUtils.java:118 | on a value whose text has no dollar sign or brace the leftmost match is its first reference |
| `PropsResolve.ReplaceKeeps` | azkaban/src/java/azkaban/app/PropsUtils.java:126-151 | replacing the leftmost reference keeps what the value expands to and leaves less to replace |
| `PropsResolve.ResolveValue` | azkaban/src/java/azkaban/app/PropsUtils.java:123-152 | whenever the loop for a key ends at all, the method ends, with the full expansion from left to right or the first problem met |
| `PropsResolve.ResolvesIff` | azkaban/src/java/azkaban/app/PropsUtils.java:130-139 | a key resolves exactly if its loop runs into no cycle, every variable it reaches is defined and none is the key itself |
| `PropsResolve.ResolvedIsPlain` | azkaban/src/java/azkaban/app/PropsUtils.java:151-153 | a resolved value holds no reference any more, nor any character of one |
| `PropsResolve.ResolveProps` | azkaban/src/java/azkaban/app/PropsUtils.java:120-156 | if no key's loop is endless it fails exactly if some key has a problem, with the problem of such a key; else every value is its definition with each reference replaced by that variable's own resolved value, and holds no reference |
| `PropsResolve.ResolvedSolves` | azkaban/src/java/azkaban/app/PropsUtils.java:123-152 | whatever key asks, an expansion is the text with every reference replaced by the referenced variable's own resolved value |
| `PropsResolve.FailsIff` | azkaban/src/java/azkaban/app/PropsUtils.java:120-156 | without cycles no loop is endless, no key is circular, and a key fails exactly if it reaches an undefined variable |
| `PropsResolve.CyclesRun` | azkaban/src/java/azkaban/app/PropsUtils.java:126-152 | for any definitions the loop for a key, turn by turn, runs for ever exactly if the expansion from left to right comes to a variable, other than the key, that it is expanding already; otherwise it halts with what the key expands to |
| `PropsResolve.SelfReferenceElsewhere` | azkaban/src/java/azkaban/app/PropsUtils.java:130-134 | a variable defined as itself, met under another key, leaves the value as it is after every number of turns |
| `WorkflowFlow.Flow.AddDependencies` | azkaban/src/java/azkaban/workflow/Flow.java:105-133 | nodes, dependents and dependencies after the call, and one message for a node that has dependencies already and for each listing of the job under itself |
| `WorkflowFlow.AddedIs` | azkaban/src/java/azkaban/workflow/Flow.java:105-133 | entry by entry: the node of the job gets exactly the listed dependencies, the listed nodes other than itself get it as a dependent, missing nodes are put in, and nothing else changes |
| `WorkflowFlow.MessagesAre` | azkaban/src/java/azkaban/workflow/Flow.java:112-124 | one message about multiple entries unless the node was there without dependencies, and one for each time the job lists itself |
| `WorkflowFlow.Flow.GraphLayer` | azkaban/src/java/azkaban/workflow/Flow.java:165-186 | the search terminates; it succeeds with all walks below explored and levels at least their lengths, or stops with one message, naming the node from which a walk goes back to a node it has passed |
| `WorkflowFlow.Flow.ValidateFlow` | azkaban/src/java/azkaban/workflow/Flow.java:140-163 | the first call is true exactly if there was no earlier message and no walk from a node without dependencies meets a node twice; then each level is the length of the longest walk to its node; else one message names a node from which such a walk turns back |
| `WorkflowFlow.EveryEntryIsReported` | azkaban/src/java/azkaban/workflow/flow/FlowNode.java:34-43 | a new node has an empty set of dependencies and not null, so every addDependencies call reports multiple entries |
| `WorkflowFlow.BuiltFlowIsValidIff` | azkaban/src/java/azkaban/workflow/Flow.java:112-114 | a flow built by calls is valid exactly if addDependencies was never called |
| `GraphDisabling.Graph.DisableRecursively` | azkaban/web/static/js/azkaban-graph.js:83-101 | the recursion terminates on any graph and switches off exactly the nodes it marks, which lie above the given one and include all they depend on |
| `GraphDisabling.Graph.DisableAllAncestors` | azkaban/web/static/js/azkaban-graph.js:74-80 | a node is enabled afterwards exactly if it was before and no selected node depends on it; marks left by earlier calls hide none |
| `EventConsumer.EventConsumerManager.constructor` | azkaban/src/java/azkaban/scheduler/ScheduledJob.java:112-130 | criteria are numbered in the order of iteration and none is met |
| `EventConsumer.EventConsumerManager.ResetCriteriaCheck` | azkaban/src/java/azkaban/scheduler/EventConsumerManager.java:120-124 | no criterion is met afterwards |
| `EventConsumer.EventConsumerManager.AllCriteriaSatisfied` | azkaban/src/java/azkaban/scheduler/EventConsumerManager.java:196-206 | true exactly if every criterion is met |
| `EventConsumer.EventConsumerManager.CheckCriteria` | azkaban/src/java/azkaban/scheduler/EventConsumerManager.java:126-194 | inside the window a message ticks off the first open criterion it meets and no other; outside it goes to the end of the queue |
| `EventConsumer.AbsorbAt` | azkaban/src/java/azkaban/scheduler/EventConsumerManager.java:147-184 | after a message a criterion is met if it was before, or if the message has its key with exactly its value and no open criterion before it could use the message |
| `EventConsumer.EventConsumerManager.Consume` | azkaban/src/java/azkaban/scheduler/EventConsumerManager.java:208-227 | inside the window it ends, having taken the shortest prefix that meets all criteria, or everything if there is none |
| `EventConsumer.TakeIs` | azkaban/src/java/azkaban/scheduler/EventConsumerManager.java:126-194 | one turn of the loop: outside the window the first message goes to the end of the queue and nothing else happens; inside it is consumed, and a run is due exactly if all criteria are met then |
| `EventConsumer.NothingLost` | azkaban/src/java/azkaban/scheduler/EventConsumerManager.java:126-146 | over every run of arrivals, takes and triggers, queued and consumed messages together are those that were sent |
| `EventConsumer.TriggersOnTime` | azkaban/src/java/azkaban/scheduler/EventConsumerManager.java:208-227 | over every run a trigger comes exactly as soon as the messages consumed since the one before satisfy all criteria, and between triggers the flags are what those messages meet |
| `EventConsumer.DistinctBacking` | azkaban/src/java/azkaban/scheduler/EventConsumerManager.java:155-184 | each criterion of each trigger is backed by a consumed message that has its key with exactly its value, and no message backs two |
| `EventConsumer.TriggersCost` | azkaban/src/java/azkaban/scheduler/ScheduleManager.java:280-288 | triggers times criteria is at most the number of messages consumed |
| `EventConsumer.GreedyIsSerial` | azkaban/src/java/azkaban/scheduler/EventConsumerManager.java:147-184 | consuming message by message meets the same criteria as letting the criteria choose in order, each the first message left that meets it |
| `EventConsumer.TriggersIff` | azkaban/src/java/azkaban/scheduler/EventConsumerManager.java:147-184 | a queue triggers exactly if each criterion is met by some message that no criterion before it has picked |
| `EventConsumer.TriggersSoundly` | azkaban/src/java/azkaban/scheduler/EventConsumerManager.java:147-184 | a queue that triggers holds a message of its own for every criterion |
| `EventConsumer.RightWithoutOverlap` | azkaban/src/java/azkaban/scheduler/EventConsumerManager.java:147-184 | if no message meets two criteria, a queue triggers exactly if for every criterion some message has its key with exactly its value |
| `EventConsumer.GreedyIsRightIff` | azkaban/src/java/azkaban/scheduler/EventConsumerManager.java:147-184 | the match triggers on exactly the queues that could be matched, for all queues, exactly if there are no two criteria |
| `EventConsumer.PrefixIff` | azkaban/src/java/azkaban/scheduler/EventConsumerManager.java:208-227 | some prefix of a queue meets all criteria exactly if the whole queue does |
| `ScheduledJobs.WindowIsCircular` | azkaban/src/java/azkaban/scheduler/EventManagerUtils.java:111-126 | the hour test is membership in a circular interval of hours, the whole day when start and stop agree |
| `ScheduledJobs.CatchUp` | azkaban/src/java/azkaban/scheduler/ScheduledJob.java:180-198 | the catch-up loop returns the first multiple of the period past the present and throws exactly if the 100001st is not past it, for any period |
| `ScheduledJobs.DeferredIntoWindow` | azkaban/src/java/azkaban/scheduler/ScheduledJob.java:168-178 | an event job outside its window is put off to a moment after the present, less than a day ahead, whose hour is in the window |
| `ScheduledJobs.DeferredExactly` | azkaban/src/java/azkaban/scheduler/ScheduledJob.java:168-178 | and it is exactly the first moment not before the present at the hour the window starts with and minute 0, with the seconds of the clock |
| `ScheduledJobs.UpdatedIsLater` | azkaban/src/java/azkaban/scheduler/ScheduledJob.java:142-154 | an updated time is after the present, and a due job that gets one recurs |
| `ScheduledJobs.UpdatedExactly` | azkaban/src/java/azkaban/scheduler/ScheduledJob.java:142-198 | a time to come stays; a due job without period gets none; a due job that recurs gets its time plus the least number of periods past the present, or the start of the window if it is an event job that must wait |
| `ScheduledJobs.RaisedIff` | azkaban/src/java/azkaban/scheduler/ScheduledJob.java:142-198 | updateTime raises an exception exactly if the loop gives up or the window starts at no hour of the day |
| `ScheduledJobs.ScheduledJob.GetNextRuntime` | azkaban/src/java/azkaban/scheduler/ScheduledJob.java:164-201 | the method with its loop computes the next run that these lemmas speak of |
| `ScheduledJobs.ScheduledJob.Update` | azkaban/src/java/azkaban/scheduler/ScheduledJob.java:142-154 | the same of the object: when a due job is updated its time is next plus k periods for the least k past the present, or the first start of its window; otherwise the time stays |
| `ScheduleManagers.ScheduleManager.Schedule` | azkaban/src/java/azkaban/scheduler/ScheduleManager.java:159-168 | an id's old job leaves the queue as the new one enters queue and map; an exception from updateTime changes neither |
| `ScheduleManagers.ScheduleManager.RemoveScheduledJob` | azkaban/src/java/azkaban/scheduler/ScheduleManager.java:94-100 | a known id and only it leaves the map, its object leaves the queue and nothing else does; an unknown one ends in a null pointer exception with nothing changed |
| `ScheduleManagers.ScheduleManager.RunOnce` | azkaban/src/java/azkaban/scheduler/ScheduleManager.java:260-322 | one round: an entry of least time is taken, executed only when due, and put back, dropped or forgotten as the step says |
| `ScheduleSteps.StepKeeps` | azkaban/src/java/azkaban/scheduler/ScheduleManager.java:260-322 | scheduling, removing and each round keep the invariant of queue, id map and execution log |
| `ScheduleSteps.OneEntryPerId` | azkaban/src/java/azkaban/scheduler/ScheduleManager.java:159-168 | over every run the queue holds at most one entry for an id, and it is the object of the id map |
| `ScheduleSteps.SchedulePutsIn` | azkaban/src/java/azkaban/scheduler/ScheduleManager.java:159-168 | the new object is in the map under its id and once in the queue with its next run, the one its id had is queued no more, every other entry is as before; an exception changes neither |
| `ScheduleSteps.RemoveTakesOut` | azkaban/src/java/azkaban/scheduler/ScheduleManager.java:94-100 | a known id is in the map no more, the object it named is not queued, and all other entries and all times are as before |
| `ScheduleSteps.TickExecutes` | azkaban/src/java/azkaban/scheduler/ScheduleManager.java:269-322 | a round executes its job exactly if it is due and its check does not say no, leaves all else alone, and leaves the job queued exactly if it was not due or recurs and could be put back |
| `ScheduleSteps.TimesStay` | azkaban/src/java/azkaban/scheduler/ScheduleManager.java:277-301 | no entry's time changes while it is queued, so the priority queue stays in order; a due job comes back with a time after the present |
| `ScheduleSteps.ExecutionsInTime` | azkaban/src/java/azkaban/scheduler/ScheduleManager.java:277-292 | over every run no job is executed before it is due, and each of its executions is due after every earlier one was made |
| `ScheduleSteps.DueIsRequeued` | azkaban/src/java/azkaban/scheduler/ScheduleManager.java:294-297 | a due recurring job is queued once for exactly the next run, after the present, if only JobExecutionException was raised and the next run could be found |
| `ScheduleSteps.RecurringJobsWait` | azkaban/src/java/azkaban/scheduler/ScheduleManager.java:294-301 | over every run a scheduled recurring job waits in the queue unless an exception dropped it |
| `ScheduleSteps.GoneForGood` | azkaban/src/java/azkaban/scheduler/ScheduleManager.java:234-245 | a job taken out of the queue is never executed again |
| `ScheduleSteps.RemovedNeverRuns` | azkaban/src/java/azkaban/scheduler/ScheduleManager.java:94-100 | over every run, once an id has been removed the object it named is never queued or executed again |
| `ScheduleSteps.MissingIff` | azkaban/src/java/azkaban/scheduler/ScheduleManager.java:294-301 | over every run a job that the id map names is missing from the queue exactly if an exception ended the round it was due in, or it has no period and its round has passed |
| `ScheduleSteps.RunsOnce` | azkaban/src/java/azkaban/scheduler/ScheduleManager.java:299-301 | a run of two events after which a job is in the id map and not in the queue |
| `FlowCache.CachingFlowManager.AddToCache` | azkaban/src/java/azkaban/flow/CachingFlowManager.java:161-176 | put and eviction: at most the eldest entry goes and only if it is not running; before the exception an entry that was there is replaced by the new one, as the youngest |
| `FlowCache.CachingFlowManager.Execute` | azkaban/src/java/azkaban/flow/CachingFlowManager.java:109-124 | a wrapped flow is inserted unless its id is cached, and then started |
| `FlowCache.CachingFlowManager.LoadExecutableFlow` | azkaban/src/java/azkaban/flow/CachingFlowManager.java:142-154 | a cached id returns its holder and its entry becomes the youngest, the others keeping their order; else what the base manager has is inserted and returned |
| `FlowCache.StepKeeps` | azkaban/src/java/azkaban/flow/CachingFlowManager.java:51-76 | keys stay distinct, whatever is executed, loaded or changes its status |
| `FlowCache.EvictsLeastRecent` | azkaban/src/java/azkaban/flow/CachingFlowManager.java:56-74 | over every run only a full cache evicts, and what goes is the entry whose key was inserted or loaded the longest ago, told by the events alone |
| `FlowCache.EntriesInOrderOfUse` | azkaban/src/java/azkaban/flow/CachingFlowManager.java:52-76 | over every run the entries stand in the order of the last events that inserted or loaded their keys |
| `FlowCache.EvictsEldest` | azkaban/src/java/azkaban/flow/CachingFlowManager.java:56-74 | only an insertion evicts, and never an entry that is running |
| `FlowCache.HitIsYoungest` | azkaban/src/java/azkaban/flow/CachingFlowManager.java:142-154 | after a hit the entry is the youngest and the order of the others unchanged |
| `FlowCache.LoadedStays` | azkaban/src/java/azkaban/flow/CachingFlowManager.java:142-154 | with room for two, loading the elder of two flows makes the other one go when a third comes in |
| `FlowCache.InsertionIs` | azkaban/src/java/azkaban/flow/CachingFlowManager.java:56-74 | what an event puts in comes last, and the eldest entry goes exactly if the cache was full and that entry does not run; no other event changes the size |
| `FlowCache.SizeIs` | azkaban/src/java/azkaban/flow/CachingFlowManager.java:56-74 | over every run the size is within the configured one as long as no insertion into the full cache found the least recently used entry running, and from then on exactly the configured one plus the number of such insertions |
| `FlowCache.OutgrownIff` | azkaban/src/java/azkaban/flow/CachingFlowManager.java:56-74 | over every run the cache has outgrown its size exactly if there was such an insertion |
| `FlowCache.TwoOutgrowOne` | azkaban/src/java/azkaban/flow/CachingFlowManager.java:56-74 | the shortest such run with room for one: two flows are executed while the first still runs, and no single event suffices |
| `FlowCache.RunningFlowsOutgrow` | azkaban/src/java/azkaban/flow/CachingFlowManager.java:56-74 | a cache can be outgrown as far as one likes: flows left running all stay |
| `FlowCache.NeverShrinks` | azkaban/src/java/azkaban/flow/CachingFlowManager.java:56-74 | over every run the cache is at least as large at the end as at any earlier moment, so what has outgrown its size stays so |
| `FlowCache.KeysAreIds` | azkaban/src/java/azkaban/flow/CachingFlowManager.java:161-176 | over every run each key is the id of its flow, if the base manager stores flows under their ids |
| `FlowCache.RunningIsPinned` | azkaban/src/java/azkaban/flow/CachingFlowManager.java:142-154 | as long as a cached flow runs it stays cached, and loading its id returns this holder |
| `PropsChain.Props.With` | azkaban-common/src/java/azkaban/common/utils/Props.java:104-109 | the new layer says parent overridden by props |
| `PropsChain.Props.Get` | azkaban-common/src/java/azkaban/common/utils/Props.java:143-150 | the recursion up the chain is lookup in the flat map |
| `PropsChain.Props.ContainsKey` | azkaban-common/src/java/azkaban/common/utils/Props.java:132-134 | membership in the flat map |
| `PropsChain.Props.Put` | azkaban-common/src/java/azkaban/common/utils/Props.java:172-174 | one entry of the flat map changes |
| `PropsChain.Props.PutAll` | azkaban-common/src/java/azkaban/common/utils/Props.java:209-216 | all properties of p are laid over this layer, also when p itself hangs below it, and p says the same as before |
| `PropsChain.Props.GetKeySet` | azkaban-common/src/java/azkaban/common/utils/Props.java:579-589 | exactly the keys of the flat map |
| `PropsChain.Props.GetMapByPrefix` | azkaban-common/src/java/azkaban/common/utils/Props.java:554-569 | the suffixes of exactly the keys that start with the prefix, with the flat map's values |
| `PropsChain.Props.StoreFlattened` | azkaban-common/src/java/azkaban/common/utils/Props.java:539-547 | what is written is the flat map |
| `PropsChain.Props.Clone` | azkaban-common/src/java/azkaban/common/utils/Props.java:599-614 | new objects with the same layers in the same order, saying the same |
| `PropsChain.Props.EqualsProps` | azkaban-common/src/java/azkaban/common/utils/Props.java:410-423 | true exactly if both flat maps are equal |
| `PropsChain.FlatIsOverlay` | azkaban-common/src/java/azkaban/common/utils/Props.java:143-150 | the chain says what its layers say laid over each other |
| `PropsChain.OverlayAt` | azkaban-common/src/java/azkaban/common/utils/Props.java:143-150 | a key has the value of the nearest layer that has it |
| `PropsChain.MergeOutputs` | azkaban/src/java/azkaban/flow/GroupedExecutableFlow.java:268-276 | a successful group's return props are its children's outputs laid over each other from left to right, as chains of layers |
| `PropsChain.MergeIsOverlay` | azkaban/src/java/azkaban/flow/GroupedExecutableFlow.java:268-276 | and that is what runs take them to be |
| `PropsChain.OverlayLastWins` | azkaban/src/java/azkaban/flow/GroupedExecutableFlow.java:268-276 | laid over each other, outputs give each key any of them has with the value of the last that has it, and no other key |
| `JobDescriptors.AddDependenciesOf` | azkaban/src/java/azkaban/app/JobManager.java:417-432 | the trimmed names that are not empty, as a set; the first listed one that is no job ends it, with those before it added |
| `JobDescriptors.TrimIs` | azkaban/src/java/azkaban/app/JobManager.java:420-421 | trim leaves the text between the first and the last character above the space |
| `JobDescriptors.AddDependencies` | azkaban/src/java/azkaban/app/JobManager.java:414-436 | fails exactly if some job lists a name that is no job, with the first such name of the job, and else gives every job the jobs it lists |
| `JobDescriptors.GetRoots` | azkaban/src/java/azkaban/app/JobManager.java:151-158 | exactly the jobs that no job depends on |
| `JobDescriptors.RootsReachAll` | azkaban/src/java/azkaban/app/JobManager.java:151-158 | without cycles every job is a root or below one |
| `FlowManagers.NoFolderIff` | azkaban/src/java/azkaban/flow/RefreshableFlowManager.java:142-154 | a path has no folder, and breaks the reload, exactly if it is made of slashes only; the paths that the present loader makes, below the job directory, are not |
| `FlowManagers.FolderIs` | azkaban/src/java/azkaban/flow/RefreshableFlowManager.java:142-154 | a path without slash belongs to the default folder, any other to the text before its first slash, one at the very beginning not counted |
| `FlowManagers.LoadFlows` | azkaban/src/java/azkaban/flow/RefreshableFlowManager.java:129-164 | every job gets its flow, and every root is in the list of its folder once and in no other |
| `FlowManagers.RefreshableFlowManager.Reload` | azkaban/src/java/azkaban/flow/RefreshableFlowManager.java:129-178 | the reload step of the runs below: the new manager has the new flows and goes on from the old one's last id; a path without a folder leaves everything as it was |
| `FlowManagers.RefreshableFlowManager.GetNextId` | azkaban/src/java/azkaban/flow/RefreshableFlowManager.java:97-103 | the id step of the runs below, and the id is the one it issues |
| `FlowManagers.RefreshableFlowManager.CreateNewExecutableFlow` | azkaban/src/java/azkaban/flow/ImmutableFlowManager.java:113-124 | the creation step of the runs below: an existing name takes the counter's next value and gives a new object for each job it reaches, wired to each other; an unknown one takes none |
| `FlowManagers.IdsIncrease` | azkaban/src/java/azkaban/flow/ImmutableFlowManager.java:127-136 | over every run of these steps one id is issued for each request and each creation of a flow that exists, strictly increasing and without gaps, also across reloads |

## Left out

- The Java memory model and lock order: each synchronized block, each volatile access of a group's notification, and for the managers, the scheduler and the cache each public call or round is one step.
- The state a group reads in updateState: its children's statuses and return props are read at one moment, and a job's status and return props are set at one moment. The code reads the children one after the other under the group's lock only, and sets a job's status before its return props, so that a merge may meet a SUCCEEDED child without return props.
- progressMade callbacks: they only pass on progress; the iteration over the list of callbacks while another thread adds to it is not modelled.
- Cancelling inside a flow of several jobs, and resetting a job while the thread of a cancelled run is alive: the end of that thread overwrites the status, so verdicts are not final there.
- The constructors of the group and the composed flow on objects that already run or are done: flows are built on new objects, as createExecutableFlow does.
- The catch clauses around a child's or a dependee's execute: the one exception that execute raises is shown not to occur.
- Statuses other than IGNORED set from outside by setStatus, which is for the deserializers.
- Start and end times, the map of exceptions, log lines, mail and Kafka messages.
- The id of an instance in the serialised form, and the deserializers.
- FlowReset.ExecutableFlows.ResetFailedFlows: flows are values in a map that is a field, not separate objects, so aliasing between flows shows only as sharing of a key.
- WorkflowFlow.Flow.AddDependencies: nodes are values in the map of nodes; the source keeps node objects there, which nothing else refers to.
- GraphDisabling.Graph.DisableRecursively: nodes are values in the map of nodes, for the same reason.
- FlowCache.CachingFlowManager.AddToCache: the access ordered map of the Java library is a sequence of entries, eldest first.
- ScheduleManagers.ScheduleManager.RunOnce: the priority queue of the Java library is a multiset from which an entry of least time may be taken; whether an event's check passes and what the execution raises are parameters.
- PropsResolve.ResolveProps: text with a dollar sign or a brace outside references; and what memory does when a loop does not end, which PropsResolve.CyclesRun says exactly.
- EventConsumer.EventConsumerManager.Consume: outside the window the messages go round until the hour changes; that is covered by single steps and no end is claimed. Messages are taken as parsed, and JSON null values and texts that are no object are not modelled.
- ScheduledJobs.DeferredIntoWindow: days have a fixed length and no time zone changes; periods are fixed lengths too.
- FlowManagers.IdsIncrease: ids are unbounded integers; createNewExecutableFlow and reload do not overlap.
- PropsChain.Props.Get: values are never null; the typed getters, loading and storing of files are not modelled.
- JobDescriptors.AddDependencies: splitting the property at commas, loading the files and finding duplicate names come before.
- The cloning constructor of workflow.Flow, positions, statuses and props of its nodes, and the drawing code of the graph page.
- Servlets, the job executor, permits and locks, class loading and file access.
