# A verified model of the humanoid runtime

The repository is a concurrent robot runtime: a job scheduler, a manager of shared and exclusive
resource leases, the path a command takes from a caller to the robot adapter, behaviour trees and
their documents, missions, linked cancellation, a perception pipeline and telemetry. This project
models the parts with real state machines or algorithms and proves what they keep.

How the models are built:

- A component that several threads use is a state machine. Each event is one critical section, or
  one action that a thread takes between two of them, so a sequence of events is an interleaving of
  all threads. A step that is not enabled changes nothing. Theorems are about every reachable state
  or every continuation of a run. Beside the machine stands a class whose methods perform the
  sections as the source does, with its loops, and which are proved to take the machine's steps.
- An algorithm with loops is a method proved against a function, and the function has the theorems.
- What such a function or step means is proved without naming it: by the statuses, leases, priorities,
  flags and counters that its callers see (`BehaviorLaws`, `LeafLaws`, `SchedulerLaws`,
  `SchedulerRecords`, `PipelineLaws`, `CancellationLaws`, the grant theorems of `ResourceTheorems`), by
  grammars of the two document formats (`JsonGrammar`, `YamlGrammar`), and by theorems that nothing a
  shutdown waits for can be stuck (`SchedulerShutdown`, `PipelineShutdown`, `DispatcherShutdown`).
- Commands, executors, conditions, clocks and the rest of the system are arbitrary: every answer
  they can give is a parameter, an event, or a nondeterministic choice.
- Fields named as auxiliary are only written; no step depends on them.

Where the code does not do what one would expect, the code is kept and the exact condition is proved:

- `PipelineTheorems.HistoryListsRecords`, `PipelineTheorems.HistoryExceedsLimit`,
  `PipelineTheorems.ClosedAccounts`: the pipeline's shutdown takes the queue and then completes the
  entries one by one. A cancellation in between completes an entry twice, and if its record had been
  evicted the second completion brings it back. `PipelineWindow.LateCancelsOverfillHistory` is a run
  in which a history of limit one keeps two records, lists none, and two commands are counted as four
  cancellations.
- `PipelineTheorems.ClosedAnswersAll`: promises are set after the lock is released, so when shutdown
  has returned a cancellation or a refused submission that is not finished may leave its caller
  without an answer; nobody else is. `PipelineWindow.SlowCancelIsUnanswered` is such a run.
- `SchedulerStranding.IdleWorkerTakesWork`: a queued job that is not paused runs in some continuation
  if and only if some worker has not left. Workers leave only after a shutdown or its call from a
  worker (`SchedulerTheorems.WorkersStayWhileAccepting`), and `SchedulerStranding.StrandedJob` is a
  run in which the call from a worker strands a job that could start, in every continuation.
- `DispatcherTheorems.ShutdownEndsQuietly`: a shutdown of the dispatcher leaves an adapter call
  running if and only if the queue's worker made it from inside that call. The queue then stays open
  although every later shutdown reports completion (`DispatcherTheorems.WorkerShutdownLeavesQueueRunning`,
  `DispatcherTheorems.WorkerShutdownHappens`).
- `BehaviorLeaves.SafeLeavesExactly`: a delay of positive duration forgets that it succeeded, so a
  memory sequence and a stateless one differ; of the leaves modelled it is the only one.
- `BehaviorTheorems.DualityExactly`: an inverter over a selector over inverted children is a sequence
  over the children if and only if the children yield to a cancellation that one of them requests
  during its tick. A wait whose predicate requests cancellation, before a command that has completed,
  is a pair that does not (`BehaviorLeaves.CancellationBreaksDuality`). An inverter over a cancelled
  selector also leaves the selector's index alone where the sequence clears its own, so runs of memory
  composites part when a cancellation is taken back (`BehaviorLeaves.TakenBackCancellationParts`).
  They do not if cancellation sticks (`BehaviorTheorems.RunsAreDual`), nor over children whose status
  to go on with is latched (`BehaviorTheorems.LatchedRunsAreDual`); stateless ones never do.

## Model

| member | source | states |
|---|---|---|
| PerceptionPipeline.BuildExecutionOrder | src/perception/PerceptionPipeline.cpp:163-212 | for every stage graph, dependencies counted with multiplicity, the sort terminates, succeeds if and only if every dependency is registered and the graph is acyclic, and then yields every stage once and after its dependencies |
| PerceptionGraph.OrderImpliesAcyclic | src/perception/PerceptionPipeline.cpp:163-212 | a graph that has an execution order has no cycle of any length |
| PerceptionGraph.StuckImpliesCycle | src/perception/PerceptionPipeline.cpp:192-210 | a nonempty set of stages each waiting for another of the set contains a cycle |
| PerceptionPipeline.StalledIsCyclic | src/perception/PerceptionPipeline.cpp:207-211 | the ready list runs empty with fewer stages emitted than there are only if the graph is cyclic: the size comparison detects exactly the cycles |
| PerceptionPipeline.CountEdges | src/perception/PerceptionPipeline.cpp:171-183 | the incoming counts and the reverse edges agree with the declared dependencies, repeated ones included, and a missing dependency is found |
| PerceptionPipeline.LowerCounts | src/perception/PerceptionPipeline.cpp:196-204 | lowering the counts of a stage's dependents keeps each count equal to the dependencies still pending and adds to the ready list exactly the stages that reach zero |
| PerceptionGraph.UnregisterKeepsOrderable | src/perception/PerceptionPipeline.cpp:57-74 | taking a stage and every reference to it out of a closed acyclic graph leaves it closed and acyclic |
| PerceptionPipeline.Pipeline.RegisterStage | src/perception/PerceptionPipeline.cpp:30-55 | a stage is added exactly if its descriptor and its dependency names are valid and its id is new, and the others stay; unknown dependencies are accepted |
| PerceptionPipeline.Pipeline.UnregisterStage | src/perception/PerceptionPipeline.cpp:57-74 | the stage is gone, each other stage loses exactly its dependencies on it and keeps the rest with their multiplicity, and an orderable pipeline stays orderable |
| PerceptionPipeline.Pipeline.Execute | src/perception/PerceptionPipeline.cpp:113-150 | runs enabled stages only, in an execution order, up to the first that fails, each after its enabled dependencies, all of them when it succeeds, or nothing when there is no order |
| PerceptionPipeline.EnabledOrderRespects | src/perception/PerceptionPipeline.cpp:113-150 | leaving out the disabled stages keeps every enabled stage after its enabled dependencies |
| PerceptionPipeline.RunsEnabledPrefix | src/perception/PerceptionPipeline.cpp:113-150 | what has run when a stage fails is a prefix of the enabled stages in order |
| PerceptionPipeline.ContextsAreHandedOn | src/perception/PerceptionPipeline.cpp:123-146 | each enabled stage is called with the context its predecessor left; the result is the context of the last call, the stages that succeeded, and a status that tells whether the last one was refused, threw, or succeeded |
| PerceptionPipeline.CallsExist | src/perception/PerceptionPipeline.cpp:127-146 | every execution is such a series of calls |
| SchedulerTheorems.RecordsArePartitioned | src/runtime/RuntimeScheduler.cpp:226-252 | in every reachable state the records are the disjoint union of the outstanding jobs and a duplicate-free history within its limit, and no lookup of a record has missed |
| SchedulerTheorems.AcceptedJobsAreConserved | src/runtime/RuntimeScheduler.cpp:578-620 | accepted equals completed, failed, cancelled, queued and running together, and every accepted job's promise is set at most once and not before it is finished |
| SchedulerTheorems.ShutdownResolvesEveryJob | src/runtime/RuntimeScheduler.cpp:341-407 | once a shutdown has returned and no stop call is half done, queue and outstanding are empty and every accepted job's promise is set |
| SchedulerTheorems.SequentialJobsRunAlone | src/runtime/RuntimeScheduler.cpp:523-534 | the running count is the number of running jobs, at most the number of workers, and a running sequential job is the only one |
| SchedulerTheorems.IdleSchedulerFindsWork | src/runtime/RuntimeScheduler.cpp:536-556 | whenever nothing runs and a queued job is not paused, there is a job that can start |
| SchedulerLaws.TakenJobLeads | src/runtime/RuntimeScheduler.cpp:536-554 | in every reachable state the job that is taken can start, and no job that can start has a higher priority, Critical before High before Normal before Low, or the same priority and an earlier acceptance |
| SchedulerLaws.JobTakenExactly | src/runtime/RuntimeScheduler.cpp:523-556 | a job is found exactly if some queued job is not paused, no sequential job runs, and nothing runs if it is sequential itself |
| SchedulerLaws.OutcomeDecides | src/runtime/RuntimeScheduler.cpp:595-607 | a callback that throws has failed, one that returns after a requested cancellation was cancelled, a state that is not final means success, and this verdict stands whatever happens until it is recorded |
| SchedulerLaws.VerdictIsRecorded | src/runtime/RuntimeScheduler.cpp:672-684 | the verdict becomes the state of the job's record, the newest of the history, and exactly the counter for that state goes up |
| SchedulerLaws.CancellationArrives | src/runtime/RuntimeScheduler.cpp:332-336 | a cancellation requested from outside, by a stop call or by a shutdown reaches the job, and a stop ends its pause |
| SchedulerLaws.PeaksAreReached | src/runtime/RuntimeScheduler.cpp:648-652 | in every run the two peaks in the statistics are the greatest queue length and the greatest number of running jobs there has been |
| SchedulerRecords.RecordsShowTheTruth | src/runtime/RuntimeScheduler.cpp:263-339 | in every reachable state the record of an outstanding job shows Cancelled exactly if the job was asked to stop, else Paused exactly if it is paused, else whether it is queued or runs |
| SchedulerShutdown.ShutdownCanComplete | src/runtime/RuntimeScheduler.cpp:341-407 | no deadlock: from every reachable state some continuation completes a shutdown with every stop call finished, nothing left and every accepted job's promise set |
| SchedulerStranding.IdleWorkerTakesWork | src/runtime/RuntimeScheduler.cpp:628-641 | in every reachable state a queued job that is not paused runs in some continuation if and only if some worker has not left; once all have left no continuation runs it |
| SchedulerStranding.StrandedJob | src/runtime/RuntimeScheduler.cpp:349-352 | a run with one worker, whose callback shuts the scheduler down while a second job is paused, leaves that job queued, resumed and startable with no worker to run it in any continuation |
| SchedulerTheorems.WorkersStayWhileAccepting | src/runtime/RuntimeScheduler.cpp:349-352 | no worker leaves while jobs are accepted |
| SchedulerTheorems.QueueIsInAcceptanceOrder | src/runtime/RuntimeScheduler.cpp:238-242 | the queue always stays in acceptance order and within its size |
| SchedulerTheorems.TerminalRecordsStayTerminal | src/runtime/RuntimeScheduler.cpp:558-576 | a terminal record of a job never becomes nonterminal again in any continuation |
| SchedulerTheorems.IdReuseNeedsEviction | src/runtime/RuntimeScheduler.cpp:226-252 | an id carries a new job only if its record was evicted in between |
| SchedulerTheorems.StepEvolves | src/runtime/RuntimeScheduler.cpp:263-339 | every step keeps the job of each record and its terminal state, and new records carry jobs never seen before |
| SchedulerSteps.RunInv | src/runtime/RuntimeScheduler.cpp:622-688 | the consistency of queue, outstanding jobs, records, history, workers and counters over every interleaving |
| RuntimeScheduler.Scheduler.FindNextJob | src/runtime/RuntimeScheduler.cpp:536-554 | the scan finds the startable job of highest priority and earliest acceptance, or none exactly if none can start |
| RuntimeScheduler.Scheduler.Submit | src/runtime/RuntimeScheduler.cpp:213-261 | accepts exactly valid jobs of a known priority and mode with a free id, while open and below capacity; the job is then queued last with a fresh record, and a refusal changes nothing but a counter |
| RuntimeScheduler.Scheduler.Pause | src/runtime/RuntimeScheduler.cpp:263-279 | succeeds exactly on outstanding jobs that are not terminal, and then the job is paused and its record says so; otherwise nothing changes |
| RuntimeScheduler.Scheduler.Resume | src/runtime/RuntimeScheduler.cpp:281-298 | succeeds exactly on paused jobs and restores the state they had; otherwise nothing changes |
| RuntimeScheduler.Scheduler.StopLocked | src/runtime/RuntimeScheduler.cpp:300-331 | takes a job that is in the queue off the books or marks a running one, and tells which; otherwise nothing changes |
| RuntimeScheduler.Scheduler.TakeNext | src/runtime/RuntimeScheduler.cpp:628-652 | a free worker takes the best startable job, whatever the others do |
| RuntimeScheduler.Scheduler.Complete | src/runtime/RuntimeScheduler.cpp:653-686 | a returned job leaves the outstanding ones with a normalized final state and is counted once |
| RuntimeScheduler.Scheduler.ShutdownLocked | src/runtime/RuntimeScheduler.cpp:341-380 | closes the scheduler, cancels everything queued and asks everything running to stop in one section |
| RuntimeScheduler.PruneCompletedHistory | src/runtime/RuntimeScheduler.cpp:567-576 | the eviction loop keeps the newest entries up to the limit and drops exactly the records of those that leave and are not outstanding |
| ResourceTheorems.LeasesExclude | src/runtime/ResourceManager.cpp:166-187 | in every reachable state an exclusive lease is the only lease of its resource, an entry exists exactly while it has a lease or a waiter, and lease ids are never shared |
| ResourceTheorems.NoLostWakeup | src/runtime/ResourceManager.cpp:42-59 | whenever a parked thread could have its lease, a notification is on its way |
| ResourceTheorems.WaiterCanTakeLease | src/runtime/ResourceManager.cpp:42-59 | a waiting thread that could have its lease is at most a notification and a wakeup away from it |
| ResourceTheorems.WakingStepNotifies | src/runtime/ResourceManager.cpp:114-148 | the only step after which a parked thread could have its lease and stays parked is a release that owes the notification |
| ResourceTheorems.NoSharedOvertaking | src/runtime/ResourceManager.cpp:23-34 | while a thread waits for an exclusive lease no step adds a shared lease to the resource |
| ResourceTheorems.LeasesGrantedExactly | src/runtime/ResourceManager.cpp:23-74 | in every reachable state a try or an acquire of a valid id gives a new lease, and changes no other, exactly if for a shared one no exclusive lease is active and no thread waits for one, and for an exclusive one no lease is active; else a try changes nothing and an acquire waits |
| ResourceTheorems.WokenGrantedExactly | src/runtime/ResourceManager.cpp:49-112 | a woken thread, and one whose deadline has come, takes its lease under exactly the same condition, and else parks again or gives up |
| ResourceTheorems.ReadersShare | src/runtime/ResourceManager.cpp:23-25 | any number of shared leases on one resource are reachable together |
| ResourceTheorems.EndedLeaseStaysEnded | src/runtime/ResourceManager.cpp:166-177 | a lease that has ended is never active again |
| ResourceTheorems.StaleHandleIsInert | src/runtime/ResourceManager.cpp:114-148 | a stale handle releases nothing in any continuation, even after the entry was erased and created again |
| ResourceTheorems.ReleaseEndsOneLease | src/runtime/ResourceManager.cpp:114-148 | a successful release ends the lease it names and no other |
| ResourceTheorems.RunInv | src/runtime/ResourceManager.cpp:42-148 | leases, wait counts and entries stay consistent over every interleaving of acquiring, trying, timing out and releasing |
| ResourceManager.Manager.TryAcquire | src/runtime/ResourceManager.cpp:61-74 | gives an active lease exactly if the id is valid and the leases and waiting threads allow it, and changes nothing otherwise, so no unused entry stays |
| ResourceManager.Manager.BeginAcquire | src/runtime/ResourceManager.cpp:42-58 | gives the lease exactly if the id is valid and the leases and waiting threads allow it, and else registers the waiter and parks |
| ResourceManager.Manager.Recheck | src/runtime/ResourceManager.cpp:49-58 | a woken waiter takes the lease exactly if the leases and waiting threads allow it, and else parks again |
| ResourceManager.Manager.ExpireWait | src/runtime/ResourceManager.cpp:90-109 | when a timed wait expires the waiter and an unused entry are gone, no lease changes, and an exclusive waiter notifies all others |
| ResourceManager.Manager.Release | src/runtime/ResourceManager.cpp:114-148 | succeeds exactly if the handle names a current lease of its mode, which then has ended, and changes nothing otherwise |
| ResourceManager.Manager.ActiveLockCount | src/runtime/ResourceManager.cpp:150-163 | the number of leases on a resource |
| ResourceManager.Lock.Release | src/runtime/ResourceManager.cpp:234-242 | a lock releases its lease at most once |
| ResourceManager.Lock.MoveFrom | src/runtime/ResourceManager.cpp:213-217 | move construction hands the lease over without releasing it, and the source then owns nothing |
| ResourceManager.Lock.AssignFrom | src/runtime/ResourceManager.cpp:219-228 | move assignment releases what the target owned, then hands the lease over; assigning a lock to itself changes nothing |
| TreeJobs.TickWindowsExclude | src/bt/BehaviorTreeRuntime.cpp:29-94 | two tree jobs that name the same resource tick at the same time only if both asked for it shared |
| TreeJobs.WorldRunInv | src/bt/BehaviorTreeRuntime.cpp:56-94 | a ticking tree job holds its lease in every reachable state |
| TreeJobs.HoldsKept | src/runtime/ResourceManager.cpp:114-148 | no step of anybody else ends a lease |
| TreeJobs.JobTicksExactly | src/bt/BehaviorTreeRuntime.cpp:29-60 | a new tree job ticks at once exactly if it names no resource or can have it, else waits if it has a timeout, and else gives up |
| TreeJobs.JobEndReleases | src/bt/BehaviorTreeRuntime.cpp:56-94 | a tree job that returns ends its own lease and no other |
| YamlTree.RoundTripExactly | src/bt/TreeParser.cpp:378-517 | printing and parsing gives a tree back if and only if some document describes it: names free of `#` and newline, and every node named or with children |
| YamlGrammar.ParsesExactly | src/bt/TreeParser.cpp:378-517 | the parser returns a tree if and only if the document is made of lines, with any blanks and comments, that are the text of a block describing it: fields in any order, `child` and `children` mixed at any depth, items with and without a type, names bare or in either quotes |
| YamlGrammar.BlockRead | src/bt/TreeParser.cpp:458-499 | the text of every block of fields is read as the node it describes, at any indentation and before any shallower rest |
| YamlGrammar.BlockFound | src/bt/TreeParser.cpp:458-499 | whatever fields are read are the text of a block, and the node is what it describes |
| YamlGrammar.ItemsRead | src/bt/TreeParser.cpp:422-456 | the text of every list of items is read as its nodes in order |
| YamlGrammar.LinesRead | src/bt/TreeParser.cpp:378-410 | lines with their indentation, blanks and comments are read as exactly what they say |
| YamlGrammar.LinesFound | src/bt/TreeParser.cpp:378-410 | whatever is read as lines is made of such lines |
| YamlTree.RoundTrip | src/bt/TreeParser.cpp:422-517 | every describable tree is parsed back from its canonical document, every line used |
| YamlTree.ParsedIsDescribable | src/bt/TreeParser.cpp:378-517 | whatever the document, a tree the parser returns has clean names and no node without both a name and children |
| YamlTree.ReprintIsStable | src/bt/TreeParser.cpp:501-517 | printing a parsed document and parsing it again changes nothing |
| YamlTree.LinesRoundTrip | src/bt/TreeParser.cpp:378-410 | splitting, trimming and comment removal give back exactly the printed lines with their indentation |
| YamlTree.ItemsRoundTrip | src/bt/TreeParser.cpp:422-456 | the printed items of a list are read back in order at any indentation and before any rest |
| YamlTree.ChildrenRoundTrip | src/bt/TreeParser.cpp:458-499 | a printed children block is read back and the rest is left alone |
| YamlTree.ParseNodeFields | src/bt/TreeParser.cpp:458-499 | the field loop advances the index within the lines, terminates on every input and reads what the grammar reads |
| YamlTree.ParseNodeList | src/bt/TreeParser.cpp:422-456 | the item loop does the same for lists, with the recursion between the two |
| YamlTree.LinesFromYaml | src/bt/TreeParser.cpp:378-410 | the line loop yields exactly the content lines, and an error for a tab in the indentation |
| YamlTree.ParseYaml | src/bt/TreeParser.cpp:501-517 | the whole parser on every document |
| TreeText.Trim | src/bt/TreeParser.cpp:55-67 | both ends are trimmed: the result is empty or begins and ends without space |
| JsonTree.RoundTripExactly | src/bt/TreeParser.cpp:94-376 | printing in any style, which chooses for every node with one child between `child` and `children`, and parsing gives a tree back if and only if some document describes it: nonempty names over the characters a string without `\u` can stand for |
| JsonGrammar.ParsesExactly | src/bt/TreeParser.cpp:94-376 | the parser returns a tree if and only if the document is the text of a value that describes it: any white space, any escapes, fields in any order and among others, each node's children in either field at any depth |
| JsonGrammar.ValueAccepts | src/bt/TreeParser.cpp:104-273 | every text of a value, numbers with fraction and exponent and objects with distinct keys included, is read as what it means before anything that cannot continue it |
| JsonGrammar.ValueFound | src/bt/TreeParser.cpp:104-273 | whatever is read is the text of a value with that meaning after white space |
| JsonGrammar.FieldsAre | src/bt/TreeParser.cpp:136-163 | an object means each of its keys, as it is spelled, with the meaning of its value, and no other key |
| JsonGrammar.NodeDescribed | src/bt/TreeParser.cpp:347-369 | an object is turned into a node if and only if it describes it: a type, and the only child, or the children in order, or neither field |
| JsonGrammar.BothFieldsRefused | src/bt/TreeParser.cpp:355-357 | a document in which some node, however deep, has both fields is refused |
| JsonTree.RoundTrip | src/bt/TreeParser.cpp:136-232 | every describable tree is parsed back from its escaped document, whichever nodes are written with `child` |
| JsonTree.ParsedIsDescribable | src/bt/TreeParser.cpp:183-376 | whatever the document, a tree the parser returns has nonempty names over those characters |
| JsonTree.StringRoundTrip | src/bt/TreeParser.cpp:183-232 | an escaped string is read back as it was, whatever follows it |
| JsonTree.NodeTextParsed | src/bt/TreeParser.cpp:104-181 | a printed node is read as the object with its name and its child or children, whatever follows it |
| JsonTree.NodeOfJsonOf | src/bt/TreeParser.cpp:347-369 | the object of a node is turned back into the node |
| JsonParser.JsonParser.ParseValue | src/bt/TreeParser.cpp:104-134 | reads what the grammar reads at the position and leaves the position behind it; terminates on every input |
| JsonParser.JsonParser.ParseObject | src/bt/TreeParser.cpp:136-163 | the member loop, duplicate keys refused |
| JsonParser.JsonParser.ParseArray | src/bt/TreeParser.cpp:165-181 | the element loop |
| JsonParser.JsonParser.ParseString | src/bt/TreeParser.cpp:183-232 | the character loop with its escapes and its errors |
| JsonParser.JsonParser.ParseNumber | src/bt/TreeParser.cpp:234-273 | the text of a number with its sign, fraction and exponent, digits required in each |
| JsonParser.JsonParser.SkipWhitespace | src/bt/TreeParser.cpp:275-279 | the position moves past the white space and no further |
| JsonParser.ParseJson | src/bt/TreeParser.cpp:94-101 | the whole parser on every document, trailing content refused |
| BehaviorNodes.MemoryRefinesStateless | src/bt/SequenceNode.cpp:13-54 | over children whose success is latched until reset, memory and stateless sequences show the same statuses, children and context on every run of initializations, ticks and resets; likewise selectors over latched failures |
| BehaviorNodes.CompositeLatches | src/bt/SequenceNode.cpp:13-54 | a composite over latching children latches too, so the refinement holds at every level of a tree |
| BehaviorNodes.PrefixIsSkipped | src/bt/SequenceNode.cpp:25-32 | a stateless traversal walks over finished children and arrives where memory resumes |
| BehaviorTheorems.PassesAreInOrder | src/bt/SequenceNode.cpp:25-46 | in every pass of every run each child tick is at the child after those that have succeeded, whatever the children do |
| BehaviorTheorems.OrderMeans | src/bt/SequenceNode.cpp:25-46 | so a child is ticked only after every earlier one succeeded, and never again in the pass after it succeeded |
| BehaviorTheorems.RunsAreDual | src/bt/SelectorNode.cpp:13-50 | an inverter over a selector over inverted children shows what a sequence over the children shows on every run of initializations, ticks and resets, and the other way round, when children yield to a cancellation requested during a tick and, for memory composites, cancellation sticks |
| BehaviorTheorems.LatchedRunsAreDual | src/bt/SequenceNode.cpp:13-54 | over yielding children whose status to go on with is latched, memory composites show what their duals show on every run, even if a cancellation is taken back |
| BehaviorLeaves.TakenBackCancellationParts | src/bt/InverterNode.cpp:12-16 | three ticks after which a memory sequence runs and its dual has succeeded, because the second tick saw a cancellation that the third does not |
| BehaviorTheorems.DualityExactly | src/bt/InverterNode.cpp:12-35 | one tick of the dual node agrees for all children and contexts if and only if the children yield: once a child that returned the status to go on with has requested cancellation, any child ticked then aborts untouched |
| BehaviorTheorems.StatelessRunsExactly | src/bt/SequenceNode.cpp:13-50 | for stateless composites the same condition is exact for whole runs, whatever happens to cancellation |
| BehaviorLeaves.CancellationBreaksDuality | src/bt/CommandNode.cpp:56-60 | a wait that requests cancellation before a completed command, which answers without looking at it: the sequence succeeds and its dual aborts |
| BehaviorTheorems.InitializeDual | src/bt/CompositeNode.cpp:29-47 | initialization and reset reach the children through inverters unchanged |
| BehaviorLeaves.PatientLeavesLatch | src/bt/WaitNode.cpp:25-48 | every leaf modelled but a delay of positive duration latches its success |
| BehaviorLeaves.PatientSequences | src/bt/CommandNode.cpp:56-93 | over such leaves the two policies agree on every run |
| BehaviorLeaves.DelayTellsPoliciesApart | src/bt/DelayNode.cpp:24-49 | for every positive duration three ticks tell the policies apart |
| BehaviorLeaves.SafeLeavesExactly | src/bt/DelayNode.cpp:24-64 | a fresh leaf is safe before every wait, at all tick times, if and only if it is not a delay of positive duration |
| CompositeNodes.CompositeNode.TickSequence | src/bt/SequenceNode.cpp:13-50 | the loop leaves the status, the index, the children and the context of the traversal that goes on at success |
| CompositeNodes.CompositeNode.TickSelector | src/bt/SelectorNode.cpp:13-50 | the same for the traversal that goes on at failure |
| BehaviorLaws.SequenceAnswers | src/bt/SequenceNode.cpp:13-50 | an uncancelled sequence succeeds if and only if all its children from where it resumes do; otherwise it answers what the first other child answers, Idle as Running, keeps that position with memory if the child is not finished and else starts over, and touches no later child |
| BehaviorLaws.SelectorAnswers | src/bt/SelectorNode.cpp:13-50 | an uncancelled selector fails if and only if all its children do, and otherwise answers what the first other child answers, in the same way |
| BehaviorLaws.OutcomesExist | src/bt/SequenceNode.cpp:25-46 | every tick is described by the two laws |
| BehaviorLaws.CancelledAborts | src/bt/SequenceNode.cpp:15-18 | under a requested cancellation composites and inverters abort without ticking a child, and a composite starts over |
| BehaviorLaws.InverterAnswers | src/bt/InverterNode.cpp:12-35 | an inverter exchanges success and failure and nothing else |
| BehaviorLaws.InitializeAnswers | src/bt/CompositeNode.cpp:29-39 | children are initialized in order up to the first that fails or aborts, whose status is answered, and the composite starts over |
| BehaviorLaws.ResetAnswers | src/bt/CompositeNode.cpp:41-47 | every child is reset in order, and the composite starts over |
| LeafLaws.DelayElapses | src/bt/DelayNode.cpp:24-49 | over every series of ticks a delay runs until its duration has passed since its first tick, and then succeeds |
| LeafLaws.NoDelay | src/bt/DelayNode.cpp:33-36 | a delay without a positive duration succeeds at every tick |
| LeafLaws.WaitLatches | src/bt/WaitNode.cpp:25-48 | a wait runs while its predicate does not hold, fails at a tick at which it throws, and once it has held succeeds at every later tick |
| LeafLaws.CommandLatches | src/bt/CommandNode.cpp:56-93 | a command runs until it is seen to have ended or a cancellation comes first, and repeats that for good |
| LeafLaws.CancelledStartsOver | src/bt/DelayNode.cpp:26-29 | a cancelled wait or delay aborts and is as after initialization |
| CompositeNodes.CompositeNode.Initialize | src/bt/CompositeNode.cpp:29-39 | the loop initializes children until one fails or aborts and clears the index |
| CompositeNodes.CompositeNode.Reset | src/bt/CompositeNode.cpp:41-47 | the loop resets every child and clears the index |
| CompositeNodes.CompositeNode.AddChild | src/bt/CompositeNode.cpp:60-67 | a missing child is refused, another is appended, and the index is kept |
| PipelineHistory.PruneKeeps | src/core/CommandExecutionPipeline.cpp:521-532 | pruning removes finished executions only, from records and listing alike, stops within the limit or when only outstanding ones are listed, and never goes below the limit |
| PipelineHistory.PruneIsOldestFirst | src/core/CommandExecutionPipeline.cpp:521-532 | a finished execution is kept only if it was entered after every evicted one, and the kept ones keep their order |
| PipelineHistory.PruneHistory | src/core/CommandExecutionPipeline.cpp:521-532 | the eviction loop |
| PipelineSteps.RunInv | src/core/CommandExecutionPipeline.cpp:208-348 | queue, executions, commands, records, listing, metrics, outcomes and the promises set or still to be set stay consistent over every interleaving, late cancellations included |
| PipelineTheorems.HistoryListsRecords | src/core/CommandExecutionPipeline.cpp:314-328 | the listing has no duplicates, and it holds exactly the records if and only if shutdown completed no entry whose record had been evicted |
| PipelineTheorems.HistoryExceedsLimit | src/core/CommandExecutionPipeline.cpp:521-532 | in every run the finished records exceed the limit if and only if shutdown completed more entries whose record was gone than the limit, and then they are exactly that many |
| PipelineTheorems.CleanHistory | src/core/CommandExecutionPipeline.cpp:224-250 | in a run without late cancellations the listing is exactly the records, outstanding executions are recorded, finished records stay within the limit, and the metrics balance |
| PipelineTheorems.StepEvictsOldest | src/core/CommandExecutionPipeline.cpp:474-488 | no step evicts an outstanding execution, and every step evicts oldest-first |
| PipelineTheorems.CommandsAreABijection | src/core/CommandExecutionPipeline.cpp:240-244 | outstanding commands and outstanding executions name each other, in every run |
| PipelineTheorems.ClosedAccounts | src/core/CommandExecutionPipeline.cpp:496-519 | after shutdown the metrics exceed the submissions by exactly the number of late cancellations, so they balance if and only if there was none |
| PipelineTheorems.ClosedAnswersAll | src/core/CommandExecutionPipeline.cpp:330-347 | after shutdown every execution id given out belongs to a submission under way or is answered, but for a cancellation or a refusal that has yet to set the promise; with none of those half done, all are |
| PipelineTheorems.AnswersAreFinal | src/core/CommandExecutionPipeline.cpp:534-539 | a promise once set never changes, and the record of a finished execution says what the promise says or what somebody is about to set it to |
| PipelineLaws.CountersCountResults | src/core/CommandExecutionPipeline.cpp:496-519 | in every run each counter is the number of executions first completed with its status, and cancellations are counted once more for each completion that came twice |
| PipelineLaws.RecordsShowTheStage | src/core/CommandExecutionPipeline.cpp:474-601 | in every run the record of an outstanding execution says Running exactly while it runs and Queued while it waits, and a finished one's is its first result |
| PipelineShutdown.ShutdownCanComplete | src/core/CommandExecutionPipeline.cpp:296-348 | no deadlock: from every reachable state that is not closed some continuation closes the pipeline with every identifier given out answered |
| PipelineWindow.LateCancelsOverfillHistory | src/core/CommandExecutionPipeline.cpp:262-328 | the concrete run with two late cancellations |
| PipelineWindow.SlowCancelIsUnanswered | src/core/CommandExecutionPipeline.cpp:271-291 | a run in which shutdown has returned and a cancelled command's promise is not set, because Cancel has not come to it |
| CommandPipeline.Pipeline.SubmitLocked | src/core/CommandExecutionPipeline.cpp:224-250 | accepts exactly while open, with a command that is not outstanding and room in the queue, and then queues it last; otherwise the submission is to be refused and nothing else changes |
| CommandPipeline.Pipeline.CompleteRejected | src/core/CommandExecutionPipeline.cpp:455-469 | the section records, counts and prunes a refused submission; its caller answers afterwards |
| CommandPipeline.Pipeline.CompleteExecution | src/core/CommandExecutionPipeline.cpp:474-488 | completes an execution whether or not it is still outstanding; the promise is set after the section |
| CommandPipeline.Pipeline.Cancel | src/core/CommandExecutionPipeline.cpp:271-288 | the section cancels exactly outstanding executions that do not run, and leaves the promise to its caller |
| CommandPipeline.Pipeline.TakeNext | src/core/CommandExecutionPipeline.cpp:579-601 | takes the entry of highest priority and, among those, earliest acceptance, and leaves the others |
| CommandPipeline.Pipeline.Complete | src/core/CommandExecutionPipeline.cpp:633-650 | expiry, exceptions and nonterminal results are turned into final statuses, the execution is no longer outstanding, and the worker has that status to report |
| CommandPipeline.Pipeline.CompletePromise | src/core/CommandExecutionPipeline.cpp:534-539 | the first to come sets the promise to the outcome, another one changes nothing |
| CommandPipeline.Pipeline.TakeQueue | src/core/CommandExecutionPipeline.cpp:312-315 | closes the pipeline and takes the queue in one section |
| CommandPipeline.Pipeline.DrainOne | src/core/CommandExecutionPipeline.cpp:322-325 | the section of one round, whatever has happened to the entry since it was taken |
| CommandPipeline.Pipeline.DrainAll | src/core/CommandExecutionPipeline.cpp:317-328 | the loop over the entries taken: section and promise of each, when nobody comes in between |
| CommandPipeline.Pipeline.FinishShutdown | src/core/CommandExecutionPipeline.cpp:340-345 | prunes once more and reports completion |
| Commands.FinalStatus | src/core/CommandExecutionPipeline.cpp:633-643 | for each final status exactly when it is reported: completed if the executor said so in time, a timeout if the command expired before or a completed one after, and failed for exceptions and unfinished results |
| CommandQueues.QueueConserves | src/core/CommandQueue.cpp:142-217 | in every run the statistics account for every accepted and refused command, and a promise is unset while its command is outstanding or being settled and set exactly once afterwards |
| CommandQueues.ShutdownSettlesAll | src/core/CommandQueue.cpp:219-269 | once shutdown has returned nothing is outstanding, and every accepted command's promise is set exactly once but for cancellations that have yet to set it; with none half done, all are |
| CommandQueues.ShutdownCanReturn | src/core/CommandQueue.cpp:219-269 | no deadlock: from every reachable state some continuation has shutdown return with every accepted command's promise set |
| CommandQueues.RunInv | src/core/CommandQueue.cpp:142-269 | queue, tasks, running tasks, promises and statistics stay consistent over every interleaving |
| CommandQueues.FirstMaximumRunsFirst | src/core/CommandQueue.cpp:359-365 | the first maximum by priority is also the earliest accepted of the highest priority |
| CommandQueues.CommandQueue.Enqueue | src/core/CommandQueue.cpp:142-186 | accepts exactly while open, with a free id and room, and then queues the command last; a refusal is counted and changes nothing else |
| CommandQueues.CommandQueue.Cancel | src/core/CommandQueue.cpp:188-217 | cancels exactly queued commands |
| CommandQueues.CommandQueue.TakeTask | src/core/CommandQueue.cpp:359-368 | takes the command that runs first |
| CommandQueues.CommandQueue.Complete | src/core/CommandQueue.cpp:370-403 | the result is made final, counted in exactly the counter of its status, and the command leaves the books |
| CommandQueues.CommandQueue.CloseLocked | src/core/CommandQueue.cpp:235-242 | the loop takes every queued command off the books and counts it as cancelled |
| QueueModel.RecordTotals | src/core/CommandQueue.cpp:312-335 | whatever the status, exactly one of the final counters grows by one and the number of accepted commands stays |
| DispatcherTheorems.IdsInFlightOnce | src/core/CommandDispatcher.cpp:274-332 | across both locks no id is synchronously in flight and outstanding in the queue, and no two dispatches carry the same id |
| DispatcherTheorems.AdapterCallsAreOrderly | src/core/CommandDispatcher.cpp:401-429 | adapter calls are serialized; each directly follows an accepting validation of its own command and is directly followed by its own return |
| DispatcherTheorems.QuietAfterShutdown | src/core/CommandDispatcher.cpp:345-373 | after a shutdown that the queue's worker did not make nothing is dispatched, and no continuation starts an adapter call |
| DispatcherTheorems.ShutdownEndsQuietly | src/core/CommandDispatcher.cpp:359-367 | when a shutdown completes an adapter call is under way if and only if the queue's worker made it |
| DispatcherTheorems.CallerCannotShutDown | src/core/CommandDispatcher.cpp:361-366 | a shutdown made inside a synchronous caller's own adapter call never completes |
| DispatcherShutdown.ShutdownCanComplete | src/core/CommandDispatcher.cpp:345-373 | no deadlock: from every reachable state in which nobody has shut the dispatcher down, a shutdown from outside can be called and completed |
| DispatcherTheorems.WorkerShutdownLeavesQueueRunning | src/core/CommandQueue.cpp:226-229 | after a shutdown made by the worker a queued command still reaches the adapter |
| DispatcherTheorems.WorkerShutdownHappens | src/core/CommandDispatcher.cpp:345-373 | such a shutdown is reachable |
| DispatcherInvariant.RunInv | src/core/CommandDispatcher.cpp:274-429 | ids, callers, worker, adapter lock and phases stay consistent over every interleaving of the two locks |
| CommandDispatchers.Dispatcher.Register | src/core/CommandDispatcher.cpp:279-296 | registers exactly ids that are in flight on neither side while the dispatcher is open |
| CommandDispatchers.Dispatcher.ReleaseSynchronous | src/core/CommandDispatcher.cpp:393-399 | the id is free again and the caller gone |
| CommandDispatchers.Dispatcher.Dispatch | src/core/CommandDispatcher.cpp:401-429 | every way through a dispatch: its result and what it leaves in the adapter's log |
| Selection.SelectorsAgree | src/runtime/RuntimeScheduler.cpp:536-554 | in all reachable states of the three components, on the same priorities, the three algorithms take the same position, the scheduler among the jobs that are neither paused nor held back by sequential execution |
| Selection.PipelineTakesFirst | src/core/CommandExecutionPipeline.cpp:579-591 | the comparator by priority and sequence finds the first position of highest priority |
| Selection.QueueTakesFirst | src/core/CommandQueue.cpp:359-365 | so does the first maximum |
| Selection.SchedulerTakesFirst | src/runtime/RuntimeScheduler.cpp:536-554 | so does the scan, among the jobs that can start, whatever else is queued |
| Cancellation.RunInv | src/runtime/Cancellation.cpp:29-82 | sources, callbacks, links and invocation counts stay consistent over every interleaving |
| CancellationTheorems.AtMostOnce | src/runtime/Cancellation.cpp:29-50 | in every run a callback runs at most once, and only if its source was cancelled |
| CancellationTheorems.ExactlyOnce | src/runtime/Cancellation.cpp:57-82 | when no cancellation is in progress, a callback never unregistered has run exactly once if its source is cancelled and not at all otherwise |
| CancellationTheorems.CancelledIsClosed | src/runtime/Cancellation.cpp:157-165 | when no cancellation is in progress, the cancelled sources are closed under chains of live links, sources created later included; links go from older to younger sources |
| CancellationTheorems.CancelledHasCause | src/runtime/Cancellation.cpp:157-167 | nothing is cancelled but by a call on it or by a link |
| CancellationTheorems.CancelledTracesBack | src/runtime/Cancellation.cpp:29-50 | every cancelled source is reached by a chain of invoked links from a source on which Cancel was called |
| CancellationTheorems.CancelledIsSticky | src/runtime/Cancellation.cpp:29-37 | a cancelled source stays cancelled |
| CancellationLaws.RegisteredRuns | src/runtime/Cancellation.cpp:57-73 | whatever happens after a registration, a callback that is not unregistered has run exactly once if its source is cancelled and not at all otherwise, whenever no cancellation is in progress |
| CancellationLaws.LinkedFollows | src/runtime/Cancellation.cpp:157-165 | whatever happens after a source was created from another one's token, it is cancelled if its parent is, whenever no cancellation is in progress, unless it was dropped or unlinked |
| CancellationLaws.UnregisteredIsSilent | src/runtime/Cancellation.cpp:75-82 | a callback unregistered before a cancellation takes it never runs in any continuation |
| CancellationLaws.CancelTakes | src/runtime/Cancellation.cpp:29-44 | cancelling a source cancels it and nothing else yet, and takes exactly the callbacks it keeps |
| CancellationLaws.TakenCanRun | src/runtime/Cancellation.cpp:46-49 | whatever a cancellation has taken can be invoked, and then has run once |
| CancellationTheorems.Sources.CancelLocked | src/runtime/Cancellation.cpp:32-44 | the first cancellation takes every callback out at once |
| CancellationTheorems.Sources.InvokeAll | src/runtime/Cancellation.cpp:46-49 | the loop with its cascade invokes all it took, terminates by creation order and leaves other cancellations' callbacks alone |
| CancellationTheorems.CancelSource | src/runtime/Cancellation.cpp:29-50 | a cancellation with nothing else in progress leaves nothing in progress and every live descendant cancelled |
| MissionFlow.RunMission | src/mission/MissionExecutor.cpp:300-342 | executions are of enabled steps, in order of step, iteration and attempt, within iterations and attempts; none begins after the step the mission ends at; the mission is cancelled exactly if the worker's last look at the flags saw a request, failed only at a step that cannot be executed or whose last execution did not complete, and completed exactly if every enabled step was valid and skipped or completed every iteration |
| MissionFlow.ExecuteFlowStep | src/mission/MissionExecutor.cpp:348-387 | the iterations of a step: all of them completed if the step is done, none begun if it is invalid, skipped or aborting or a condition fails, and which of these is answered; any other answer is that of the last execution or of a cancellation seen |
| MissionFlow.ExecuteStepWithRetryPolicy | src/mission/MissionExecutor.cpp:415-444 | the attempts are numbered from zero, at most as many as the policy asks for or one more than the retries, each but the last failed in a way the policy retries; the result is the last one's or a cancellation that was seen, and a failure the policy retries is final only when the attempts are used up |
| MissionFlow.EvaluateStepConditions | src/mission/MissionExecutor.cpp:389-413 | the conditions hold if all do, and the first failing one decides between skipping and failing |
| MissionFlow.EffectiveMaxAttempts | src/mission/MissionExecutor.cpp:57-63 | the policy's attempts or one more than the retries, not less than either within 32 bits |
| MissionFlow.FewestAttempts | src/mission/MissionExecutor.cpp:57-63 | no smaller number is as large as the policy's attempts and larger than the retries |
| MissionFlow.ExecutionsAreBounded | src/mission/MissionExecutor.cpp:371-441 | no step is executed more often than its iterations times the larger of the policy's attempts and one more than the retries |
| MissionControl.AtMostOneAfterPause | src/mission/MissionExecutor.cpp:152-165 | in every interleaving of a worker's gated trace with control calls at most one execution begins between an accepted pause and the next resume or start, and only if the worker had passed its wait before |
| MissionControl.AtMostOneAfterCancel | src/mission/MissionExecutor.cpp:183-203 | the same after an accepted cancellation or stop, whatever is called later, until the next start |
| MissionControl.ResumeLetsPass | src/mission/MissionExecutor.cpp:167-181 | after an accepted resume the worker may pass and execute again |
| MissionControl.MissionExecutor.StartMission | src/mission/MissionExecutor.cpp:107-131 | accepted exactly while no mission is running or paused, and then all flags are cleared |
| MissionControl.MissionExecutor.StopMission | src/mission/MissionExecutor.cpp:205-239 | accepted exactly while running or paused, and then both flags are set and a pause is over; a finished mission keeps its status |
| MissionControl.MissionExecutor.PauseMission | src/mission/MissionExecutor.cpp:152-165 | accepted exactly while running or paused, and then the mission is paused with its flag set |
| MissionControl.MissionExecutor.ResumeMission | src/mission/MissionExecutor.cpp:167-181 | accepted exactly while paused, and then the mission runs with the flag cleared |
| MissionControl.MissionExecutor.CancelMission | src/mission/MissionExecutor.cpp:183-203 | accepted exactly while running or paused, and then the flag is set and a pause is over |
| MissionControl.MissionExecutor.WaitUntilRunnable | src/mission/MissionExecutor.cpp:287-298 | lets the worker pass exactly if nothing blocks it |
| Telemetry.AllocatorIsComplete | src/services/TelemetryService.cpp:126-142 | for every maximum id and every set in use the allocator fails exactly if all ids are in use, gives the first unused id from the cursor on, and keeps the cursor valid |
| Telemetry.AllocatedIsFirstFree | src/services/TelemetryService.cpp:129-139 | after any number of attempts, what is skipped is in use and the cursor is one past the result |
| Telemetry.TelemetryService.AllocateSubscriptionId | src/services/TelemetryService.cpp:126-142 | the loop computes that allocation |
| Telemetry.TelemetryService.Subscribe | src/services/TelemetryService.cpp:58-76 | fails exactly without a listener or a free id, and otherwise adds one new id |
| Telemetry.TelemetryService.Unsubscribe | src/services/TelemetryService.cpp:78-85 | removes the id and reports whether it was there |

## Left out

- Wrap-around of 64-bit counters (job sequence numbers, execution, lease and callback ids): they are unbounded.
- Allocation failure, thread creation failure and the destructors that repeat a shutdown.
- Real clocks, timestamps, messages, log output and event callbacks: expiry is an arbitrary answer, and results are reduced to their status.
- Fairness of mutexes and condition variables: progress is stated as what can be taken next or reached in some continuation, not as what is taken eventually.
- Scheduled jobs, executions, tasks and tree nodes are values held by their component, not shared objects; the sharing of a job object between the queue and the outstanding map is modelled by its sequence number.
- Iteration order of the source's maps is left arbitrary where the result does not depend on it (perception stages) and modelled where it does (callbacks in order of registration).
- The scheduler, pipeline, queue and dispatcher classes keep their data members in one state value that every method replaces, so the order of the writes within a critical section is not modelled.
- JsonParser.JsonParser.ParseNumber: keeps the digits of a number and does not model that a number outside the range of a double is refused; no theorem about trees depends on it.
- JsonGrammar.ParsesExactly: is about the same model of numbers, so a document with a number outside the range of a double counts as accepted.
- CommandPipeline.Pipeline.DrainAll: states the loop for a run that nobody interrupts; every interleaving of its rounds is covered by the state machine.
- The printers of tree documents belong to this model; the repository has none. Characters are Unicode scalars where the source has bytes.
- BehaviorLeaves.PatientLeavesLatch: does not model a wait or command leaf without its predicate or dispatcher, which fails at once, nor that resetting a command leaf cancels its command.
- Adding children to a composite while a run is in progress, shutting composites down, action and condition leaves, which never latch their success, and parallel, retry, repeat, limiter, timeout and mission nodes.
- MissionFlow.RunMission: a cancellation becomes visible at an arbitrary look at the flags, and command results are arbitrary; a cancellation accepted after the last look does not make the final state cancelled, as in the code. The stand-alone execution of a single step beside a mission, and a condition evaluator that throws, are not modelled.
- The checks of a command's payload, the safety validator's rules and the construction of its context: a validation accepts or denies.
- CommandDispatchers.Dispatcher.Dispatch: is one dispatch that finds the adapter lock free and that nobody interrupts; waiting for the lock and the interleavings are those of the state machine.
- Publishing telemetry to listeners, the polling thread, and the telemetry service's start and stop.
- Robot adapters, language models, ROS bridge, configuration loading, cloud catalogs, registries, the mission document parser and the simple managers: input and output, foreign code, or map wrappers whose claims follow from one branch.
