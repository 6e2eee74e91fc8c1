# Verification of the MATRIX scheduler and the ZHT store

MATRIX runs a task graph on N schedulers that share the key-value store ZHT.  This project models the
scheduling protocol as a transition system over all interleavings, the code sections behind its steps,
the task-graph generators, the ZHT store down to its hash table, the message layer and the LRU cache,
and proves the properties listed below.  `dafny verify dfyconfig.toml` checks everything.

## The protocol

`MatrixModel` has one step per mutex-guarded section, ZHT call or message delivery: client packages,
the "num tasks recv" counter, the checking thread, pushes to the scheduler holding the most data,
steals, migration from the local to the stealing queue, execution with its data requests, the
completion queue, notification of children split into read and compare_swap with retries, and the
reporting of finished tasks.  The fields under "history" record what happened and are read by no step.
ZHT calls are atomic because a ZHT server handles one request at a time.

`MatrixInvariant` holds the inductive invariant, one predicate per concern; `MatrixDispatch`,
`MatrixExec`, `MatrixRun`, `MatrixNotify` and `MatrixRecord` show that every step keeps it.
`MatrixTheorems` states what follows in every reachable state.  `MatrixQueues` adds what the queues hold
(priorities, and where the data of queued tasks lie), `MatrixOrder` what is in order (nothing before the
start, notifications in the order of completion), `MatrixContention` how often threads try in vain.
`MatrixMeasure` and `MatrixBound` bound
the steps of any run, `MatrixProgress` and `MatrixCompletion` show that every state can be continued to
completion exactly when the graph is acyclic.  `MatrixFairness`, `MatrixLiveness` and
`MatrixFairCompletion` show that every infinite behaviour that is fair to each thread does complete,
`MatrixFairTheorems` what fairness means on any graph, and `MatrixFairRuns` that fairness excludes no run.

Fairness is strong: a thread that again and again can take a step takes steps again and again, even if
in between others take the mutex it needs or steal the task it could execute.  It is asked of a thread
only while its scheduler has not stopped, and nobody is asked to start a steal or a migration: the
stealing thread may give up, or never exist, and so may the monitor of the local queue.

`Scheduler` has the code sections with loops (steals, migration, routing, data collection and the
compare_swap loops) as methods; `SchedulerSteps` shows that each of them takes the corresponding steps.
`RecordStore` justifies the protocol's atomic compare_swap on records: on the texts that the code
compares and stores it does the same.

A configuration is well formed when the client submits each task of the graph to exactly one
scheduler, once; the generators and both submission modes are shown to produce such configurations.

## Behaviour of the code worth knowing

- The priority queues give the task with the *smallest* data length first.
- A steal takes half of the victim's queue; the comment in `send_task` also subtracts idle cores, the code does not.
- `resize` of the hash table forgets the number of elements, so later counts are too low (`NoVoHT.Put`
  states the exact value).
- Values containing `/` or equal to a word for absence are lost (`ReadBack`).
- compare_swap compares and replaces the value as it travelled, where an empty value is a placeholder,
  and never updates the null flag.  A value swapped in over an empty one is never seen (`SwapOverEmpty`),
  an empty value swapped in over another is read back as `?` (`EmptySwappedIn`), and the word for an
  absent new value destroys the entry.  `SwapReadBack` states exactly which new values can be read back,
  `StoreIsMap` exactly when an operation does what it would do to a map.
- A 64-bit output size is read back as a 32-bit number; a larger one becomes 0 (`OutputSizeLost`).  The
  64-bit count of a message is already written as a 32-bit number, so a larger one wraps (`CountWraps`).
- A scheduler may stop with finished tasks in its completion queue.  They are childless: by then every
  edge has been notified (`NotifiedWhenDone`).
- The text codecs drop empty fields and fields with delimiters; each round trip is stated as an
  if-and-only-if.  Headers of message frames are exact up to 7-digit counts and 4-digit sizes.

## Model

| member | source | states |
|---|---|---|
| MatrixModel.Init | matrix/src/client_stub.cpp:76-108 | every task record starts with its in-degree and children, every batch is on its way to its scheduler, both counters are 0 |
| MatrixModel.DoRecvPkg | matrix/src/scheduler_stub.cpp:262-266 | one package moves from the client's message to the wait queue |
| MatrixModel.DoRecvLookup | matrix/src/scheduler_stub.cpp:268-275 | the receive counter is read once the whole batch is enqueued |
| MatrixModel.DoRecvCas | matrix/src/scheduler_stub.cpp:277-288 | compare_swap adds the batch size, or the value seen is replaced by the current one |
| MatrixModel.DoStart | matrix/src/util.cpp:768-775 | a scheduler starts when the receive counter equals the number of tasks |
| MatrixModel.DoWaitPop | matrix/src/scheduler_stub.cpp:908-911 | the checking thread takes the head of the wait queue |
| MatrixModel.DoCrtLookup | matrix/src/scheduler_stub.cpp:862-868 | it reads the task's record |
| MatrixModel.DoCrtReturn | matrix/src/scheduler_stub.cpp:914-919 | a task whose in-degree was not 0 goes to the end of the wait queue |
| MatrixModel.DoCrtDecide | matrix/src/scheduler_stub.cpp:796-857 | a ready task is routed by threshold, largest piece and cache |
| MatrixModel.DoCrtEnqueue | matrix/src/scheduler_stub.cpp:882-890 | it is pushed to the own stealing or local queue with its new data length |
| MatrixModel.DoPushRecv | matrix/src/scheduler_stub.cpp:298-326 | a pushed task enters the target's local queue |
| MatrixModel.DoCrtDone | matrix/src/scheduler_stub.cpp:846-850 | the pushing thread continues after the acknowledgement |
| MatrixModel.DoStealSend | matrix/src/scheduler_stub.cpp:203-218 | half of the victim's stealing queue, its smallest tasks, leaves for the thief |
| MatrixModel.DoStealRecv | matrix/src/scheduler_stub.cpp:497-502 | the thief enqueues a package of stolen tasks |
| MatrixModel.DoMigrateOut | matrix/src/scheduler_stub.cpp:1230-1246 | the smallest tasks stay local, all others are taken out |
| MatrixModel.DoMigrateIn | matrix/src/scheduler_stub.cpp:1248-1252 | migrated tasks enter the stealing queue |
| MatrixModel.DoExecStart | matrix/src/scheduler_stub.cpp:738-763 | an idle core takes the top of the local or stealing queue |
| MatrixModel.DoExecLookup | matrix/src/scheduler_stub.cpp:604-614 | the executing thread reads the task's record |
| MatrixModel.DoExecFetch | matrix/src/scheduler_stub.cpp:624-645 | each non-empty piece is taken from localData or must be requested |
| MatrixModel.DoExecRemote | matrix/src/scheduler_stub.cpp:363-383 | the named scheduler answers from its localData, or with the not-found text |
| MatrixModel.DoExecCache | matrix/src/scheduler_stub.cpp:669-680 | the piece is used and cached unless an entry exists |
| MatrixModel.DoExecRun | matrix/src/scheduler_stub.cpp:687-705 | the task is executed and its output stored under scheduler and task |
| MatrixModel.DoExecComplete | matrix/src/scheduler_stub.cpp:715-718 | the task enters the completion queue with the recorded output size |
| MatrixModel.DoExecCount | matrix/src/scheduler_stub.cpp:720-723 | the finish counter grows, never while a report holds its mutex |
| MatrixModel.DoNotifyPop | matrix/src/scheduler_stub.cpp:1022-1031 | the completion thread takes the head of its queue |
| MatrixModel.DoNotifyLookup | matrix/src/scheduler_stub.cpp:944-956 | it reads the children of the finished task |
| MatrixModel.DoNotifyRead | matrix/src/scheduler_stub.cpp:963-981 | the next child's record is read |
| MatrixModel.DoNotifyCas | matrix/src/scheduler_stub.cpp:985-1003 | compare_swap applies the notification, or the current record is taken for a retry |
| MatrixModel.DoNotifyEnd | matrix/src/scheduler_stub.cpp:1005-1032 | after the last child the thread is free again |
| MatrixModel.DoRecLookup | matrix/src/scheduler_stub.cpp:1096-1118 | the done counter is read; at the number of tasks the scheduler stops |
| MatrixModel.DoRecLock | matrix/src/scheduler_stub.cpp:1120-1122 | the report takes the mutex of the finish counter |
| MatrixModel.DoRecCas | matrix/src/scheduler_stub.cpp:1120-1142 | compare_swap adds the new finishes; the retry loop breaks early when all are done |
| MatrixModel.DoRecUnlock | matrix/src/scheduler_stub.cpp:1145-1147 | the finishes become the reported ones |
| MatrixRecord.StepInv | matrix/src/scheduler_stub.cpp:734-1261 | every step of every thread keeps the whole invariant |
| MatrixRecord.ReachableInv | matrix/src/scheduler_stub.cpp:221-1261 | the invariant holds in every reachable state |
| MatrixTheorems.PrecedenceSafety | matrix/src/scheduler_stub.cpp:862-1008 | in every interleaving a task is executed at most once, and after all its parents |
| MatrixTheorems.DispatchSafety | matrix/src/scheduler_stub.cpp:862-894 | a task in a ready queue, in flight or on a core has only executed parents |
| MatrixTheorems.IndegreeLaw | matrix/src/scheduler_stub.cpp:975-1004 | the stored in-degree is the static one minus the number of distinct edges whose compare_swap succeeded |
| MatrixTheorems.RecordShape | matrix/src/scheduler_stub.cpp:963-1005 | parents, data names and sizes have one entry per notification, the total size is their sum |
| MatrixTheorems.RoutingSound | matrix/src/scheduler_stub.cpp:796-857 | a ready task at or under the threshold goes to the stealing queue with the size of all its data; one over it goes to the first holder of a largest piece, which holds it, with the size of that piece |
| MatrixTheorems.FirstMaxSpec | matrix/src/scheduler_stub.cpp:811-819 | the selection loop finds the first maximum, or none if no size exceeds the start value |
| MatrixTheorems.TaskConservation | matrix/src/scheduler_stub.cpp:734-780 | each task is in exactly one queue, message or thread, once |
| MatrixTheorems.DataAvailability | matrix/src/scheduler_stub.cpp:963-1001 | whatever a record says about data, the named scheduler has the named output |
| MatrixTheorems.CacheAgreement | matrix/src/scheduler_stub.cpp:669-705 | every cached copy equals the value at its origin |
| MatrixTheorems.NoMissingData | matrix/src/scheduler_stub.cpp:363-374 | neither the local nor the remote search fails, so the not-found branch is never taken |
| MatrixTheorems.InputIntegrity | matrix/src/scheduler_stub.cpp:624-684 | the data given to an execution are the outputs of its notifying parents, those of size 0 left out, each in the place given by the number of those notified before it |
| MatrixTheorems.BoundedContention | matrix/src/scheduler_stub.cpp:975-1004 | a compare_swap on a child fails exactly when another parent's succeeded since the last read, at most in-degree minus 1 times |
| MatrixTheorems.NotifiedExactlyOnce | matrix/src/scheduler_stub.cpp:963-1005 | a task that has finished notifying applied each of its edges exactly once |
| MatrixTheorems.StartBarrier | matrix/src/scheduler.cpp:34-38 | when any scheduler has started, all tasks are enqueued and no client enqueue is possible |
| MatrixTheorems.DoneCounter | matrix/src/scheduler_stub.cpp:1092-1149 | the done counter is the sum of the reported finishes, at most the finishes, at most the number of tasks |
| MatrixTheorems.EarlyBreakLosesNothing | matrix/src/scheduler_stub.cpp:1135-1145 | when the loop breaks early the scheduler has nothing left to report |
| MatrixTheorems.TerminationDetection | matrix/src/scheduler_stub.cpp:1105-1118 | when any scheduler stops every task has been executed exactly once and nothing waits anywhere |
| MatrixQueues.QueuePriority | matrix/src/scheduler_stub.cpp:803-842 | in every reachable state a task in a ready queue, stolen, migrating or on a core carries the length of its data: all of them if at most the threshold, else the largest piece; one not yet dispatched carries 0 |
| MatrixQueues.SmallestFirst | matrix/src/scheduler_stub.cpp:203-218 | a steal or the start of an execution takes only tasks with no more data, as their records have it, than any task left in that queue |
| MatrixQueues.StolenInOrder | matrix/src/scheduler_stub.cpp:203-218 | half of the victim's queue leaves for the thief, the tasks with the least data first |
| MatrixQueues.MonitorKeepsSmallest | matrix/src/scheduler_stub.cpp:1230-1246 | no task that stays local has more data than one that migrates |
| MatrixQueues.LocalQueueData | matrix/src/scheduler_stub.cpp:807-851 | only tasks with more data than the threshold are in local queues, and a largest piece of each is in that scheduler's localData |
| MatrixQueues.LightTasksCanBeStolen | matrix/src/scheduler_stub.cpp:807-809 | a ready task at or under the threshold is in a stealing queue or stolen until a core takes it |
| MatrixQueues.DataLocality | matrix/src/scheduler_stub.cpp:796-857 | in a run without migration a task over the threshold is never in a stealing queue, and is executed where a largest piece of its data is |
| MatrixOrder.NothingBeforeStart | matrix/src/scheduler_stub.cpp:262-295 | a scheduler that has not started holds exactly its batch, in the order sent, and none of its threads has done anything; while tasks are still to be received nothing is dispatched or executed anywhere |
| MatrixOrder.CompletionOrder | matrix/src/scheduler_stub.cpp:1010-1032 | in any run the tasks of a scheduler notify their children in the order in which they complete |
| MatrixContention.Contention | matrix/src/scheduler_stub.cpp:985-1004 | in any run the compare_swaps of a scheduler on either counter, or on the record of a task, fail at most as often as those of the others on it succeed |
| MatrixContention.CacheSaves | matrix/src/scheduler_stub.cpp:632-680 | in any run a scheduler requests each output from elsewhere at most once for each of its cores |
| MatrixContention.StopsSoon | matrix/src/scheduler_stub.cpp:1096-1148 | once all tasks are reported the reporting thread of each scheduler takes at most 4 more steps, the early break included |
| MatrixMeasure.StepMeasure | matrix/src/scheduler_stub.cpp:734-1042 | when rotations of wait queues are free no step adds work, and every receive, execute and notify step and every dispatch step other than a pop (charged to the lookup that follows) and a lookup that finds the task not ready removes some |
| MatrixMeasure.StepPotential | matrix/src/scheduler_stub.cpp:734-1042 | when pops and lookups count, and a return gives their work back, every step except steals, failed compare_swaps and reports removes its share of the work left |
| MatrixBound.Handshake | matrix/src/util.cpp:258-271 | in-degrees sum to the number of edges |
| MatrixBound.BoundedWork | matrix/src/scheduler_stub.cpp:734-1042 | in any run the steps other than steals, failed compare_swaps and reports number at most 17 a task, 5 an edge and 3 a scheduler, plus 3 for each rotation of a wait queue (its pop, lookup and return) |
| MatrixProgress.ReadyDispatch | matrix/src/scheduler_stub.cpp:862-919 | a ready task, anywhere in a wait queue or in the hands of a checking thread, can be brought into a ready queue |
| MatrixProgress.Report | matrix/src/scheduler_stub.cpp:1120-1147 | a started scheduler can always bring its report up to date |
| MatrixCompletion.Advance | matrix/src/scheduler_stub.cpp:734-1042 | no reachable state is stuck: unless all is done some continuation leaves less work |
| MatrixCompletion.Progress | matrix/src/scheduler_stub.cpp:734-1149 | from every reachable state of an acyclic graph a continuation executes all tasks, notifies all children and stops all schedulers |
| MatrixCompletion.CompletionNeedsAcyclic | matrix/src/scheduler_stub.cpp:862-894 | a run that executes all tasks lists them in a topological order |
| MatrixCompletion.CompletesIffAcyclic | matrix/src/scheduler_stub.cpp:734-1149 | completion is possible from every reachable state if and only if the graph is acyclic |
| MatrixFairTheorems.NoReadyWaits | matrix/src/scheduler_stub.cpp:902-919 | in every fair behaviour a task that is ready at any point at last leaves the wait queue and the checking thread of each scheduler |
| MatrixFairTheorems.MutexFree | matrix/src/scheduler_stub.cpp:1120-1147 | in every fair behaviour, after any point, the mutex of the finish counter is free at some later point |
| MatrixFairCompletion.NotifiedWhenDone | matrix/src/scheduler_stub.cpp:1105-1118 | whenever the done counter is the number of tasks, and so whenever a scheduler stops, every child has been notified by each of its parents |
| MatrixFairCompletion.FairCompletion | matrix/src/scheduler_stub.cpp:734-1149 | every fair behaviour on an acyclic graph reaches, and never leaves, a point at which all tasks are executed and counted, every child has been notified by each of its parents, and all schedulers have stopped |
| MatrixFairCompletion.FairIffAcyclic | matrix/src/scheduler_stub.cpp:734-1149 | a fair behaviour completes if and only if the graph is acyclic |
| MatrixFairTheorems.FairExecution | matrix/src/scheduler_stub.cpp:734-1008 | on any graph a fair behaviour at last has executed exactly the grounded tasks, those in every set that contains each task all of whose parents it contains |
| MatrixFairRuns.FairExtension | matrix/src/scheduler_stub.cpp:734-1149 | every run is the beginning of a fair behaviour, in which from then on only schedulers that have not stopped take steps |
| MatrixFairRuns.FairExists | matrix/src/scheduler_stub.cpp:734-1149 | every well-formed configuration has a fair behaviour |
| MatrixFairRuns.RunningProgress | matrix/src/scheduler_stub.cpp:734-1149 | from every reachable state of an acyclic graph some continuation without any step of a stopped scheduler ends with all tasks executed and counted, all edges notified and all schedulers stopped |
| Scheduler.MatrixScheduler.SendTask | matrix/src/scheduler_stub.cpp:203-218 | a steal takes half of the queue rounded down, no task taken is larger than one left |
| Scheduler.MatrixScheduler.RecvTaskFromScheduler | matrix/src/scheduler_stub.cpp:497-502 | all tasks received are added to the stealing queue |
| Scheduler.MatrixScheduler.LocalQueueMonitor | matrix/src/scheduler_stub.cpp:1226-1255 | the maxSize smallest tasks stay, all others migrate, below the limit nothing moves |
| Scheduler.MatrixScheduler.PopReady | matrix/src/scheduler_stub.cpp:738-763 | an executing thread takes a smallest task, from the local queue if it has one |
| Scheduler.MatrixScheduler.TaskReadyProcess | matrix/src/scheduler_stub.cpp:796-857 | the imperative routing makes the protocol's decision |
| Scheduler.MatrixScheduler.GatherData | matrix/src/scheduler_stub.cpp:614-684 | with truthful caches and answering holders the collected data are the parents' outputs in order, the cache stays truthful, and every piece used is then cached |
| Scheduler.MatrixScheduler.ReportDone | matrix/src/scheduler_stub.cpp:1120-1145 | against any interference the counter grows by exactly the new finishes, or the loop breaks with all done |
| Scheduler.NotifyOne | matrix/src/scheduler_stub.cpp:964-1004 | against any interference the notification is applied once, on top of all others, with one failure per round of interference |
| SchedulerSteps.StealSendStep | matrix/src/scheduler_stub.cpp:203-218 | the method for a steal takes the protocol's step at the victim |
| SchedulerSteps.StealRecvStep | matrix/src/scheduler_stub.cpp:497-502 | the method of the thief takes the protocol's step for a package |
| SchedulerSteps.MigrateSteps | matrix/src/scheduler_stub.cpp:1226-1255 | the monitor does nothing, or takes the two steps of migration |
| SchedulerSteps.ExecStartStep | matrix/src/scheduler_stub.cpp:738-763 | the method by which a core gets a task takes the protocol's step, or both ready queues are empty |
| SchedulerSteps.DecideStep | matrix/src/scheduler_stub.cpp:796-857 | the routing method takes the step of the checking thread |
| SchedulerSteps.GatherSteps | matrix/src/scheduler_stub.cpp:624-680 | each round of the collection is a fetch, or a fetch, a request and the caching of the answer |
| SchedulerSteps.ReportStep | matrix/src/scheduler_stub.cpp:1127-1142 | each attempt of the report is the protocol's compare_swap step, the early break included |
| SchedulerSteps.TryNotifyStep | matrix/src/scheduler_stub.cpp:985-1003 | each attempt of a notification is the protocol's compare_swap step |
| DagGenerators.GenBot | matrix/src/util.cpp:141-146 | tasks 0..n-1 without edges |
| DagGenerators.GenFanout | matrix/src/util.cpp:152-170 | tasks 0..n-1, children of v are v*d+1..v*d+d below n |
| DagGenerators.GenFanin | matrix/src/util.cpp:176-201 | tasks 0..n-1, each but the last with one child, no insertion lost |
| DagGenerators.GenPipeline | matrix/src/util.cpp:203-230 | tasks 0..n-1 in chains: v leads to v+1 exactly within a block of d |
| DagGenerators.GenDag | matrix/src/util.cpp:246-256 | whatever the kind, ids are exactly 0..n-1 and every edge ascends |
| DagGenerators.GraphEdges | matrix/src/util.cpp:141-256 | for each kind, in numbers alone, w is a child of v if and only if: never; v*d < w <= v*d+d; the same of n-1-v and n-1-w; w = v+1 and w is no multiple of d; no edge occurs twice |
| DagGenerators.PipelineEdges | matrix/src/util.cpp:203-230 | no pipeline edge crosses a multiple of d, and each task has at most one child |
| DagGenerators.FanoutSoleParent | matrix/src/util.cpp:152-170 | v > 0 is a child of (v-1)/d, once, and of nobody else |
| DagGenerators.FaninTranspose | matrix/src/util.cpp:176-201 | fan-in is the transpose of fan-out under v -> n-1-v |
| DagGenerators.GenIndegree | matrix/src/util.cpp:258-271 | the in-degree of each task counts the edges into it |
| DagGenerators.GenParents | matrix/src/util.cpp:273-288 | the parent list of each task names, in order, the source of each edge into it |
| DagGenerators.IndegreeIsParentCount | matrix/src/util.cpp:258-288 | the in-degree is the length of the parent list |
| DagGenerators.ParentsAreParents | matrix/src/util.cpp:273-288 | u is in v's parent list if and only if v is a child of u |
| DagGenerators.ParentsOrder | matrix/src/util.cpp:273-288 | parents are listed in ascending order, each as often as it has the task as a child |
| DagWorkload.IndegreeIsInDeg | matrix/src/util.cpp:258-271 | the computed in-degree is the in-degree of the protocol's graph |
| DagWorkload.IndegreeSum | matrix/src/util.cpp:258-271 | computed in-degrees sum to the number of edges |
| DagWorkload.InsertTaskInfo | matrix/src/client_stub.cpp:76-108 | one record per task with its in-degree and children |
| DagWorkload.SubmitBestCase | matrix/src/client_stub.cpp:346-366 | task i goes to scheduler i mod m, in order |
| DagWorkload.BestCasePartition | matrix/src/client_stub.cpp:346-366 | the interleaved submission puts each task in exactly one batch, once |
| DagWorkload.RoundRobinAt | matrix/src/client_stub.cpp:346-366 | the i-th task sent to scheduler s is s + i*m, of (n+m-1-s)/m of them |
| DagWorkload.WorstCasePartition | matrix/src/client_stub.cpp:304-312 | so does the submission to one scheduler |
| DagWorkload.AllTasksAt | matrix/src/client_stub.cpp:304-312 | the single batch has the tasks in ascending order |
| DagWorkload.GeneratedComplete | matrix/src/util.cpp:152-230 | a graph with ascending edges, submitted without loss, can be completed from every reachable state |
| DagWorkload.Prepare | matrix/src/client_stub.cpp:59-108 | generation, in-degrees, records and distribution together give a well-formed acyclic start of the protocol |
| NoVoHTable.NoVoHT.Put | ZHT/src/novoht.cpp:72-125 | put is a map update, after growing the table if it is full |
| NoVoHTable.NoVoHT.Get | ZHT/src/novoht.cpp:141-153 | get is a map lookup for non-empty keys |
| NoVoHTable.NoVoHT.Remove | ZHT/src/novoht.cpp:156-203 | remove deletes the key and tells whether it was there |
| NoVoHTable.NoVoHT.Append | ZHT/src/novoht.cpp:206-230 | append extends the value after a colon, or inserts it |
| NoVoHTable.NoVoHT.Resize | ZHT/src/novoht.cpp:348-370 | relinking every node in place keeps the map and the table well formed, and zeroes the count |
| NoVoHTable.NoVoHT.MoveChain | ZHT/src/novoht.cpp:359-366 | the nodes of one old chain are pushed, in order, to the fronts of the chains of their new slots, and no other node moves |
| NoVoHTable.RehashedChain | ZHT/src/novoht.cpp:359-366 | each new chain then has the nodes whose keys hash to it, the last moved first, before those it had |
| NoVoHTable.NoVoHT.SlotLookup | ZHT/src/novoht.cpp:141-153 | the chain of a key's slot decides whether the key is present and with which value |
| NoVoHTable.PlacedUnique | ZHT/src/novoht.cpp:72-125 | keys are unique in the whole table |
| ZPackCodec.PackRoundTrip | ZHT/src/ZHTUtil.cpp:136-226 | a request survives its codec if and only if its strings are clean |
| ZPackCodec.PackLayout | ZHT/src/ZHTUtil.cpp:136-190 | the text of a request is its fields in the order of the schema, each followed by two slashes |
| ZPackCodec.ShortPack | ZHT/src/ZHTUtil.cpp:190-226 | a text with fewer than 8 fields is read as an empty request |
| ZhtServer.HTWorker.Run | ZHT/src/HTWorker.cpp:80-113 | serving a request on the hash table is serving it on the map it represents |
| ZhtServer.HTWorker.InsertShared | ZHT/src/HTWorker.cpp:115-144 | the encoded request is stored under its key |
| ZhtServer.HTWorker.LookupShared | ZHT/src/HTWorker.cpp:158-183 | the stored text with a success code, or the code for a missing key |
| ZhtServer.HTWorker.RemoveShared | ZHT/src/HTWorker.cpp:373-400 | the key is removed, or the code for a missing key |
| ZhtServer.HTWorker.CompareSwapInternal | ZHT/src/HTWorker.cpp:339-371 | the stored entry gets the new value if its value is the one passed in |
| ZhtServer.InsertThenLookup | ZHT/src/HTWorker.cpp:80-144 | after request "003" request "001" returns "000" and the text of the inserting request |
| ZhtServer.AppendThenLookup | ZHT/src/HTWorker.cpp:80-156 | after request "004" request "001" returns "000", what was stored before and a colon, if anything was, and the serialized request |
| ZhtServer.RemoveThenLookup | ZHT/src/HTWorker.cpp:373-400 | request "002" tells whether the key was there, and after it request "001" finds nothing |
| ZhtServer.Refused | ZHT/src/HTWorker.cpp:80-113 | requests without a key, callbacks and unknown codes change nothing and get "-01", "" and "-98" |
| ZhtClient.CallAt | ZHT/src/ZHTUtil.cpp:50-63 | a request whose key survives its codec is served by the server its key hashes to, and changes no other |
| ZhtClient.RequestText | ZHT/src/cpp_zhtclient.cpp:274-312 | the message of each operation: code, key, value and new value or their placeholders, lease, null flags, replica number |
| ZhtClient.NoAnswer | ZHT/src/cpp_zhtclient.cpp:327-332 | an empty answer gives the return code -4 |
| ZhtClient.CallRefines | ZHT/src/cpp_zhtclient.cpp:87-249 | one operation whose key and values are empty or clean (free of `/`, not a word for absence) answers and changes the servers like the same operation on one store of values with null flags |
| ZhtClient.OneStore | ZHT/src/ZHTUtil.cpp:50-63 | any run of inserts, lookups, removals and compare_swaps whose keys and values are empty or clean, over any number of servers, replies as one atomic store |
| ZhtClient.StoreIsMap | ZHT/src/HTWorker.cpp:339-371 | an operation does to the store what it does to a map from keys to values if and only if it is no compare_swap decided by the placeholder or at odds with the null flag |
| ZhtClient.OneMap | ZHT/src/cpp_zhtclient.cpp:87-249 | for such runs that swap no empty values, and do not expect the placeholder `^` where empty values are inserted, the replies are those of one atomic map |
| ZhtClient.ReadBack | ZHT/src/cpp_zhtclient.cpp:185-224 | a value can be read back if and only if it is empty or clean |
| ZhtClient.SwapReadBack | ZHT/src/HTWorker.cpp:339-371 | for every new value: over an old value that can be read back it can be read back if and only if both are empty, or the old one is not and the new one is clean and not the word for an absent new value |
| ZhtClient.EmptySwappedIn | ZHT/src/cpp_zhtclient.cpp:296-304 | an empty value swapped in over another is read back as the placeholder |
| ZhtClient.SwapOverEmpty | ZHT/src/HTWorker.cpp:361-365 | a value swapped in over an empty one is never seen |
| RecordStore.TextInjective | matrix/src/util.cpp:381-509 | different records have different texts, so comparing texts compares records |
| RecordStore.RecordSwap | matrix/src/scheduler_stub.cpp:986-1003 | compare_swap on the texts of records succeeds exactly when the record seen is the stored one, and returns the record then stored |
| RecordStore.RecordLookup | matrix/src/scheduler_stub.cpp:966-975 | looking a record up gives it back |
| Text.Tokenize | matrix/src/util.cpp:15-37 | the loop yields the maximal non-empty stretches without the delimiter |
| Text.JoinRoundTrip | matrix/src/util.cpp:15-37 | tokenizing undoes the encoders' joining if and only if every element is non-empty and free of the delimiter |
| Text.TokensClean | ZHT/src/ZHTUtil.cpp:112-134 | every token is non-empty and free of the delimiter |
| Text.TokensCut | matrix/src/util.cpp:15-37 | a delimiter ends a token, if there is one before it, and the rest is tokenized alone |
| Text.TokensWhole | matrix/src/util.cpp:15-37 | a string without the delimiter is one token, or none if it is empty |
| Text.Join | matrix/src/util.cpp:394-402 | the append loops of the encoders terminate each element with the doubled delimiter |
| Text.NumRoundTrip | matrix/src/util.h:49-63 | a number reads back as itself if it fits the type read, else as 0 |
| Text.NumDigits | matrix/src/util.h:49-54 | numbers are written most significant digit first, with a minus in front |
| Text.ScanForms | matrix/src/util.h:56-63 | a number is read after blanks and a sign, up to the first character that is no digit |
| Text.ScanNothing | matrix/src/util.h:56-63 | where no number starts 0 is read |
| Codec.TaskRoundTrip | matrix/src/util.cpp:328-379 | a task survives its codec if and only if its strings are clean |
| Codec.TaskLayout | matrix/src/util.cpp:328-345 | the text of a task is its five fields in order, each followed by two at-signs |
| Codec.TaskDefaults | matrix/src/util.cpp:345-379 | fields missing at the end of a task text get their defaults; a text without any field is refused |
| Codec.MessageRoundTrip | matrix/src/util.cpp:602-653 | a message survives its codec if and only if its parts are clean and its count fits 32 bits |
| Codec.MessageLayout | matrix/src/util.cpp:602-632 | the text of a message is type, extra information, count and tasks or the words for their absence, each followed by two ampersands |
| Codec.TooShort | matrix/src/util.cpp:511-653 | messages with fewer than 4 fields and records with fewer than 17 are refused, others are not |
| Codec.CountWraps | matrix/src/util.cpp:614-615 | the count of a message comes back reduced to 32 bits, all else intact |
| Codec.ValueRoundTrip | matrix/src/util.cpp:381-596 | a record survives its codec if and only if id and list elements are clean and the output size fits 32 bits |
| Codec.ValueFields | matrix/src/util.cpp:381-509 | the 17 fields of a record's text in order, or the words for their absence |
| Codec.OutputSizeLost | matrix/src/util.cpp:590-591 | an output size beyond 32 bits comes back as 0, all else intact |
| Chunks.CutShape | matrix/src/util.cpp:803-821 | packages hold the tasks in order, number n/max rounded up, and have 1 to max tasks |
| Chunks.CutAt | matrix/src/util.cpp:803-821 | the i-th package holds the max tasks from i*max on, the last one what is left |
| Batch.SendBatchTasks | matrix/src/util.cpp:787-823 | the bytes sent are the header and package frames, ended by a dollar sign |
| Batch.StreamStart | matrix/src/util.cpp:793-797 | the bytes sent start with the peer's name and "send tasks" |
| Batch.FrameContents | matrix/src/util.cpp:793-823 | each frame decodes to a message of that type: first the number of all tasks, then packages of tasks i*max and following, with their number |
| Batch.StreamFrames | matrix/src/matrix_tcp_proxy_stub.cpp:121-130 | the bytes end in a dollar sign; before it the frames are separated by number signs |
| Requests.ClientBatchArrives | matrix/src/scheduler_stub.cpp:335-343 | a client's batch is recognized from any first part that holds the message type |
| Requests.StolenTasksDiffer | matrix/src/scheduler_stub.cpp:335-343 | stolen tasks are never taken for a client's batch |
| Requests.RequestArrives | matrix/src/scheduler_stub.cpp:344-383 | load queries, steal requests, pushed tasks and data requests reach their handlers with what they carry |
| Batch.RecvMul | matrix/src/matrix_tcp_proxy_stub.cpp:134-148 | chunks are collected up to one that ends in a dollar sign |
| Batch.ReceivedAll | matrix/src/matrix_tcp_proxy_stub.cpp:134-148 | however the stream is cut into non-empty chunks all of it is received |
| Batch.ReceivedOpen | matrix/src/matrix_tcp_proxy_stub.cpp:134-148 | while no chunk ends in a dollar sign everything is read |
| Batch.BatchRoundTrip | matrix/src/scheduler_stub.cpp:469-505 | the receiver recovers exactly the packages sent, and the header announces their total |
| Batch.UnpackShort | matrix/src/scheduler_stub.cpp:486-490 | a package that announces more tasks than it holds is refused |
| Batch.SendBig | matrix/src/matrix_tcp_proxy_stub.cpp:93-115 | the writes fit the buffer and spell the message and a dollar sign |
| Batch.BigRoundTrip | matrix/src/matrix_tcp_proxy_stub.cpp:93-148 | a large message survives every cut of its bytes if and only if it contains no dollar sign |
| Blob.BlobRoundTrip | ZHT/src/bigdata_transfer.cpp:105-184 | a frame header is read back if and only if its counts have at most 7 and its size at most 4 digits |
| Blob.HeaderLayout | ZHT/src/bigdata_transfer.cpp:105-121 | the header has 20 digits of id, 7 of number, 7 of total and 4 of size; the value follows |
| Blob.StrToUlReads | ZHT/src/bigdata_transfer.cpp:123-140 | a decimal number beyond 64 bits is cut off, a negative one wraps around |
| Blob.Split | ZHT/src/bigdata_transfer.cpp:234-267 | a message becomes its pieces, numbered from 1, each with the total |
| Blob.BdRecvBase.GetBdStr | ZHT/src/bigdata_transfer.cpp:322-368 | receiving a frame updates the receive map and yields a message as `Receive` says |
| Blob.BdRecvBase.CombineBlobs | ZHT/src/bigdata_transfer.cpp:381-393 | the values of a set are concatenated in order |
| Blob.ReceiveStep | ZHT/src/bigdata_transfer.cpp:322-368 | a frame yields its message, intact, exactly when it is the last one missing |
| Blob.Reassembly | ZHT/src/bigdata_transfer.cpp:322-398 | for any order, interleaving and early duplicates each message is yielded once, intact, and nothing is left over |
| LruCache.Cache.Insert | ZHT/src/lru_cache.h:223-245 | the new entry comes first and only the least recent entries over the budget go |
| LruCache.Cache.PerformAll | ZHT/src/lru_cache.h:141-245 | any operations on an empty cache lead to the contents of which `LruInclusion` speaks |
| LruCache.Cache.Exists | ZHT/src/lru_cache.h:141-148 | a key exists if and only if the list has an entry for it |
| LruCache.Cache.Fetch | ZHT/src/lru_cache.h:190-216 | the cached data, touched on request |
| LruCache.Cache.Touch | ZHT/src/lru_cache.h:166-169 | the entry moves to the front, size and all else unchanged |
| LruCache.Cache.Remove | ZHT/src/lru_cache.h:153-161 | the entry of the key, and nothing else, is gone |
| LruCache.Cache.Evict | ZHT/src/lru_cache.h:239-244 | eviction ends within the budget and keeps the longest prefix that fits |
| LruSpec.Evicted | ZHT/src/lru_cache.h:239-244 | what stays is a prefix within the budget, and any longer prefix is over it |
| LruCache.TouchedOrder | ZHT/src/lru_cache.h:291-298 | the touched entry comes first, the others keep their order |
| LruCache.InsertedOrder | ZHT/src/lru_cache.h:223-245 | a new entry comes first and is followed by the longest prefix of the others that fits: one more would be over the budget; one that exceeds the budget by itself empties the cache |
| LruSpec.LruInclusion | ZHT/src/lru_cache.h:153-245 | with unit sizes a smaller cache is a subsequence of a larger one after any operations, and every hit agrees |

## Left out

- Registration of schedulers: the counter "number of scheduler registered" follows the same compare_swap pattern as the receive counter.
- The `running` flag on the inner loops: in the model the threads of a stopped scheduler may still take steps, so the safety theorems cover more interleavings than the code has, and a continuation in `Progress` may use such steps to empty the completion queues.  `RunningProgress` does without them, and `FairCompletion` asks no fairness of these threads.
- Task ids and data keys are numbers and pairs in the protocol, where the code concatenates strings; one client is assumed and keys are taken to be injective.
- User, directory and command of a task, time stamps and logging; execution yields an arbitrary output.
- Builds other than that of matrix/src/Makefile: DATA_CACHE is defined, ZHT_STORAGE is not.
- Status records that a scheduler inserts under its own name for monitoring.
- `sockMutex`, which a scheduler process holds during most ZHT calls, steals, pushes and data requests: it only rules out interleavings.  Waiting for it ends, because its holders wait only for ZHT servers and for the threads that answer requests; these never take it, and the mutexes they take are never held while waiting for it.  Fairness to a thread includes that it gets `sockMutex` at last.
- Work-stealing back-off, the choice of victims, and the average throughput behind `maxSize`, which is an arbitrary number.
- In the protocol, outputs travel between schedulers intact; with the text codec that holds for the outputs `MessageRoundTrip` calls safe.
- Lost messages and broken connections: the code has no recovery.
- Files of the hash table, its iterators and `getSize`; the table is the in-memory one.
- State-change callbacks and the protobuf text that `append` stores, which is a parameter.
- NUL characters and message-size limits of the C buffers; unsigned wrap-around of cache sizes and of hash-table sizes.
- `clear` of the LRU cache, which leaves the current size stale, and the variants of `insert` and `fetch` that return the evicted data or a pointer.
- Hash functions are arbitrary functions; sockets, epoll loops, threads and clocks are not modelled.
- Batch.BatchRoundTrip: batches are at most 2^31 - 1 tasks, because the count is written and read as a 32-bit number.
- Blob.Reassembly: a receive gets exactly one frame, because everything after the header counts as its value.
- NoVoHTable.NoVoHT.Get: says nothing of the address of the value, which the code returns and callers only read.
