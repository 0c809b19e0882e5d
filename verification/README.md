# TaskHub: a verified model of the DAG engine and its neighbours

TaskHub runs task graphs. A caller submits a list of specs; `DagBuilder` validates it and builds a
graph; `DagExecutor` runs the graph on a thread pool, at most `maxParallel` nodes at a time, and on a
failure either stops submitting (fail-fast) or skips everything downstream. Around it stand a template
renderer, a worker registry with failover dispatch, a priority thread pool, a cron parser, a paged log
buffer, a retry loop, and on the client side a layered canvas layout. This project models these parts in
Dafny and proves what they promise.

`dafny verify dfyconfig.toml` checks everything.

## How it is organised

- `Graphs`, `TaskCommon`, `Text`: paths, cycles and topological orders; statuses; `std::string::find`.
- `DagBuilder`, `DagValidator`, `DagGraph` (module `DagGraphs`), `DagService`: validation (Kahn's count, then a
  coloured depth-first search that extracts a cycle), the mutable graph, and run-id stamping.
- `DagProtocol`: the executor as a step machine. A step is one shared-memory action of one thread: pop, check,
  submit, exit test; or, for a finishing worker, set status, look at one child, decrement, push, visit one node of
  the skip pass, give the slot back. A run is an arbitrary interleaving with freely chosen task outcomes.
- `DagInvariant` with `DagScheduler`, `DagWorkers`, `DagChildren`, `DagSkipping`, `DagRuns`: the inductive
  invariant and its preservation. `DagLog`: the order of events. `DagOutcome`, `DagVerdict`, `DagLimits`, `DagSlots`,
  `DagOrder`, `DagProgress`, `DagConfluence`: what follows for whole runs. `DagInline`: the executor as the sequential program it is on a
  pool thread. `DagEndToEnd`: from specs to result. `DagExamples`: concrete inputs.
- `LayoutLevels`, `LayoutOverflow`, `LayoutColumns`: the canvas layout.
- `Template`, `TemplateTrees`, `TemplateValidator`: the renderer and the parameter validator.
- `WorkerSelection`, `WorkerRegistry`, `RemoteDispatch`: picking a worker and failing over.
- `CronParser`, `CronNext`, `CronRoundTrip`; `TaskLogs`; `ThreadPool`; `Retry`; `Nesting`.

## What the executor results mean

The results are about the graph that `build` makes from specs which passed `validate` and carry one run id; in that
setting a node's name stands for its task id (`DagService.ValidSpecsBuildDag`, `DagGraphs.MakeKeyInjective`).
Memory is sequentially consistent, and the condition-variable wait is its predicate used as a guard. The pool runs every
node that is posted: it drops what is posted or queued while it is stopping (`ThreadPool.DagThreadPool.Enqueue`,
`ThreadPool.DagThreadPool.ClearQueues`), a node dropped that way keeps the running count up for ever, and then there is
no return; so the results about progress and about returns are for a pool that is not stopped during the run. The branch that
runs a node on the scheduling thread itself is one of the interleavings (`DagInline`).

Some things the code does that its documentation does not say, kept as they are and stated exactly:

- A node with an empty id is popped, taken for an empty queue and lost, and the DAG still reports Success
  (`DagExamples.LostNode`). `DagOutcome.LeftBehindExactly` says which nodes a run leaves behind: those at or below an
  empty id and not below a failure.
- A task result outside Success, Failed, Timeout and Canceled makes its node Failed without marking the DAG as failed
  (`DagExamples.OddResult`). `DagVerdict.VerdictExact` says exactly when "Success iff every node succeeded" holds, from
  the graph and the task outcomes alone.
- An undeclared dependency with an empty name passes the presence check and is reported as a cycle with an empty list
  of nodes (last clause of `DagValidator.Validate`, `DagExamples.EmptyDependency`).
- `maxParallel` is read as a signed 32-bit number, so 2^31 and more mean one slot (`DagProtocol.Slots`).
- `get` on a log buffer with limit 0 returns one record (`TaskLogs.PageOf`).
- A cron field may end in a comma; both day fields must match, where the crontab of POSIX.1-2017 takes either; and for a
  clock before the epoch and off a whole minute the search starts one minute late (`CronNext.Next`).
- `start` on a pool without workers drops jobs posted before it (`ThreadPool.DagThreadPool.Start`), and a pool that is
  stopping still hands out jobs until its queues are cleared (`ThreadPool.DagThreadPool.TakeJob`).
- A DAG body submitted from outside may carry its own `_nesting_depth`, so the depth of the first children is the
  caller's to choose: below zero for a longer chain, or at the limit for children beyond it (`Nesting.LimitExceeded`);
  below them it cannot be overridden (`Nesting.TopChildDepth`, `Nesting.ChainBound`, `Nesting.LimitKeptExactly`).

## Model

| member | source | states |
|---|---|---|
| `DagBuilder.EdgesMeaning` | server/src/dag/dag_builder.cpp:87-92 | the adjacency table holds an edge exactly where some spec names the dependency |
| `DagBuilder.BuildTables` | server/src/dag/dag_builder.cpp:81-92 | the two tables are the dependency relation and, for every task, the number of its dependency entries, repeated ones included |
| `DagBuilder.KahnCount` | server/src/dag/dag_builder.cpp:94-108 | for any queue order, all tasks are counted iff no edge comes from an undeclared name and there is no cycle |
| `DagBuilder.CycleMeaning` | server/src/dag/dag_builder.cpp:113-137 | a cycle of the table is a cycle of the dependency relation and conversely |
| `DagValidator.CycleSearch.Dfs` | server/src/dag/dag_builder.cpp:120-146 | the search either reports a genuine cycle or finishes its node with a growing post-order, stack and colours restored |
| `DagValidator.FindCycle` | server/src/dag/dag_builder.cpp:113-150 | the reported list is a genuine cycle, and it is empty exactly when there is none |
| `DagValidator.CollectIds` | server/src/dag/dag_builder.cpp:46-50 | the id set holds exactly the declared names |
| `DagValidator.FindMissing` | server/src/dag/dag_builder.cpp:57-65 | a name is returned exactly when some non-empty dependency is undeclared, and it is the first such one in the order of the specs |
| `DagValidator.Validate` | server/src/dag/dag_builder.cpp:41-154 | for any spec list (repeated ids, repeated dependencies, self-loops, empty names) and any iteration order: ok iff every dependency is declared and there is no cycle; the first missing dependency is named; a reported cycle is genuine and is reported whenever there is one |
| `DagGraphs.MakeKeyInjective` | server/src/dag/dag_graph.cpp:5-10 | within one run id, different ids have different keys |
| `DagGraphs.DagGraph.EnsureNode` | server/src/dag/dag_graph.cpp:24-35 | an existing node is returned as it is, a missing one is added fresh; no other node changes |
| `DagGraphs.DagGraph.RecomputeIndegree` | server/src/dag/dag_graph.cpp:42-47 | every counter becomes the number of dependency entries of its node |
| `DagGraphs.Link` | server/src/dag/dag_builder.cpp:24-26 | a dependency is recorded at its dependent and the dependent at it; the node of the dependency is created if missing |
| `DagGraphs.Build` | server/src/dag/dag_builder.cpp:12-32 | the mutable graph that results is the one the specification function gives for the specs |
| `DagService.BuiltIsSound` | server/src/dag/dag_builder.cpp:12-32 | downstream is the exact inverse multiset of the dependencies, both are the dependency relation, the counters are the numbers of dependencies, the nodes are the declared tasks and any undeclared dependency |
| `DagService.ValidSpecsBuildDag` | server/src/dag/dag_builder.cpp:12-32 | specs that pass validation build an acyclic graph on exactly the declared names |
| `DagService.SameVerdict` | server/src/dag/dag_service.cpp:28-35 | stamping a run id changes neither the names nor whether the specs are valid |
| `DagService.Prepare` | server/src/dag/dag_service.cpp:24-48 | stamp, validate, build: a graph comes out exactly for valid specs, and under one run id it is a well-formed acyclic graph on the declared names |
| `DagRuns.StepKeepsInv` | server/src/dag/dag_executor.cpp:31-354 | every step of every thread keeps the invariant |
| `DagRuns.ReachableInv` | server/src/dag/dag_executor.cpp:16-354 | the invariant holds in every state of every run |
| `DagLog.ReachableLog` | server/src/dag/dag_executor.cpp:115-354 | in every run the event log is orderly: ready, start, end and skip events come at most once, in order, after their causes, and agree with the state |
| `DagLimits.StartAfterDependencies` | server/src/dag/dag_executor.cpp:247-275 | a node starts only after it was announced ready, and that only after each of its dependencies ended in success |
| `DagLimits.AtMostOnce` | server/src/dag/dag_executor.cpp:115-135 | no node becomes ready, starts or ends twice, and none both starts and is skipped |
| `DagLimits.CounterMeaning` | server/src/dag/dag_executor.cpp:247-275 | a node's counter equals its dependency edges not yet dealt with, duplicates counted; what is queued or popped is Pending with counter 0, so the status guards discard nothing |
| `DagLimits.ClosedChildIsPassed` | server/src/dag/dag_executor.cpp:250-256 | a child found Skipped, Failed, Timeout or Canceled is passed over and all else left alone; any other is counted down next |
| `DagLimits.SkipsOnlyPending` | server/src/dag/dag_executor.cpp:301-347 | the skip pass only ever overwrites Pending or Skipped, never a queued, running or finished node |
| `DagLimits.SlotLimit` | server/src/dag/dag_executor.cpp:21-33 | the running count equals the nodes in flight; neither it nor the number of Running nodes exceeds `maxParallel` from 1 to 2^31 - 1, or one for 0 and from 2^31 on |
| `DagSlots.GoesOnExactly` | server/src/dag/dag_executor.cpp:33 | the scheduling thread goes for another node exactly while there is a free slot |
| `DagSlots.FillsSlots` | server/src/dag/dag_executor.cpp:31-71 | any number of ready nodes, as far as the setting has room for them, can come to run at the same time |
| `DagSlots.WaitsForWorkers` | server/src/dag/dag_executor.cpp:83-101 | the wait goes on only while nothing is ready, some worker is at work and fail-fast has not failed |
| `DagOrder.FirstReadyFirstStarted` | server/src/dag/dag_executor.cpp:36-42 | in every run the started nodes are the ready ones in the same order, some left out |
| `DagOrder.StartsInReadyOrder` | server/src/dag/dag_executor.cpp:36-42 | of two nodes that started, the one that became ready first started first |
| `DagLimits.SoundReturn` | server/src/dag/dag_executor.cpp:73-113 | once the exit test has passed nothing is queued, in flight or about to be pushed, and after the return no step is possible |
| `DagLimits.FailFastLimit` | server/src/dag/dag_executor.cpp:63-70 | under fail-fast, after the failure is recorded at most one more node starts in any continuation, and only the one already past the check |
| `DagLimits.FailFastNeverSkips` | server/src/dag/dag_executor.cpp:294-299 | under fail-fast no node is ever skipped |
| `DagOutcome.NamelessNeverRuns` | server/src/dag/dag_executor.cpp:44-47 | a node with an empty id never runs |
| `DagOutcome.SkipDownstreamOutcome` | server/src/dag/dag_executor.cpp:276-353 | at the return of any run: Skipped iff some proper ancestor failed, timed out or was canceled; run exactly once iff named and all dependencies succeeded; otherwise untouched |
| `DagOutcome.LeftBehind` | server/src/dag/dag_executor.cpp:44-47 | with ordinary results a node stays Pending only because of an empty id at or above it |
| `DagOutcome.LeftBehindExactly` | server/src/dag/dag_executor.cpp:44-47 | and exactly then, unless it is below a failure |
| `DagOutcome.Verdict` | server/src/dag/dag_executor.cpp:104-113 | the DAG is reported Failed iff some task reported a failure |
| `DagVerdict.FailedExactly` | server/src/dag/dag_executor.cpp:104-113 | under either policy and for every interleaving, the DAG is reported Failed iff some task that would run fails: one with a name, below only named tasks that succeed, told from the graph and the task outcomes |
| `DagVerdict.FateExactly` | server/src/dag/dag_executor.cpp:244-353 | when downstream is skipped or nothing fails, the status of every node as a function of the graph and the task outcomes: its own result if it would run, Skipped if something above it would run and fail, else Pending |
| `DagVerdict.AllSucceededExactly` | server/src/dag/dag_executor.cpp:104-113 | under either policy, every node succeeded iff every node has a name and every task succeeds |
| `DagVerdict.VerdictExact` | server/src/dag/dag_executor.cpp:104-113 | under either policy, "Success iff every node succeeded" holds iff some task that would run fails, or every node has a name and every task that would run reports an ordinary result |
| `DagVerdict.OutcomesExist` | server/src/dag/dag_executor.cpp:220-243 | every run has task outcomes, one for each task that ran |
| `DagProgress.BoundedWork` | server/src/dag/dag_executor.cpp:31-102 | along any run the working steps are paid for by a measure of the nodes' remaining work |
| `DagProgress.RunIsBounded` | server/src/dag/dag_executor.cpp:31-102 | a whole run has a bounded number of working steps, by the sizes of the nodes |
| `DagProgress.CanFinish` | server/src/dag/dag_executor.cpp:73-102 | from every state that satisfies the invariant some continuation reaches the return |
| `DagProgress.NeverStuck` | server/src/dag/dag_executor.cpp:73-102 | every reachable unfinished state has an enabled step, at the level of the wait predicate |
| `DagConfluence.SkippedByParent` | server/src/dag/dag_executor.cpp:301-347 | at the return a node is skipped iff some dependency is skipped or failed |
| `DagConfluence.SameEnd` | server/src/dag/dag_executor.cpp:16-114 | two complete runs with the same task outcomes end with the same verdict, whatever the policies, interleavings and numbers of slots, and with the same status everywhere if both skip downstream or nothing fails |
| `DagConfluence.SkipDownstreamNamed` | server/src/dag/dag_executor.cpp:276-353 | for named nodes and ordinary results: skipped iff below a failure, otherwise run exactly once and holding its own result |
| `DagInline.DagExecutor.RunNode` | server/src/dag/dag_executor.cpp:183-195 | running a node in place ends, frees its slot, and reaches only states of the concurrent executor |
| `DagInline.DagExecutor.Execute` | server/src/dag/dag_executor.cpp:31-102 | the sequential loop ends, in a final state of the concurrent executor, with the given outcomes |
| `DagInline.RunSequentially` | server/src/dag/dag_executor.cpp:183-195 | the sequential run ends with the verdict of any concurrent run with the same outcomes, and with the same statuses if both skip downstream or nothing fails |
| `DagEndToEnd.RunDagVerdict` | server/src/dag/dag_service.cpp:24-54 | for any specs that pass validation, stamped with the given run id or already sharing one, under either policy: Failed iff some task that runs fails, told from the specs and the outcomes |
| `DagEndToEnd.RunDagFate` | server/src/dag/dag_service.cpp:24-54 | and the final status of every task, when downstream is skipped or nothing fails |
| `DagEndToEnd.RunDagOutcome` | server/src/dag/dag_service.cpp:24-54 | for named specs and ordinary results under SkipDownstream: a task is skipped iff something it depends on, through any chain, failed; every other task ran once with its own result; Success iff all succeeded |
| `DagExamples.LostNode` | server/src/dag/dag_executor.cpp:44-47 | for the one spec with an empty id, which passes validation: a run in which its node is lost and the DAG reports Success |
| `DagExamples.OddResult` | server/src/dag/dag_executor.cpp:277-291 | for one spec: a run in which its node ends Failed and the DAG reports Success |
| `DagExamples.EmptyDependency` | server/src/dag/dag_builder.cpp:59 | for one spec with an undeclared empty dependency: a cycle with an empty list is reported |
| `LayoutLevels.BuildInfo` | client/src/tasks/layout_task.cpp:51-64 | children and parents hold exactly the lines between known nodes, each once |
| `LayoutLevels.QueuePass` | client/src/tasks/layout_task.cpp:66-101 | for any lines, cyclic or not: a node neither on a cycle nor below one gets the length of the longest path ending in it; and every node gets one more than the highest such node above it, or 1 if there is none |
| `LayoutLevels.PathBound` | client/src/tasks/layout_task.cpp:80-94 | no path ending in a node the queue has passed is longer than its level |
| `LayoutLevels.ReachedExactly` | client/src/tasks/layout_task.cpp:80-94 | the queue reaches exactly the nodes that are neither on a cycle nor below one |
| `LayoutOverflow.SortSpec` | client/src/tasks/layout_task.cpp:115-139 | sorting by either order gives a sorted permutation |
| `LayoutOverflow.SplitLevel` | client/src/tasks/layout_task.cpp:138-174 | a level is kept whole if it fits in four slots; otherwise the shortest prefix of the push order moves on; kept and moved partition the level and the kept part is not empty |
| `LayoutOverflow.PlaceLevel` | client/src/tasks/layout_task.cpp:135-176 | one level placed: each of its nodes is kept or waits exactly one level on, nobody else moves, fewer nodes wait, and the level is full if anybody leaves it |
| `LayoutOverflow.Distribute` | client/src/tasks/layout_task.cpp:103-177 | the loop ends although its bound grows; every node is in exactly one final level, never before its computed one; every level is non-empty, at most four slots wide and in display order; a level that a node was pushed past keeps a node and was full, and whoever was pushed past it comes no later in the push order than whoever stayed |
| `LayoutColumns.LayoutNodes` | client/src/tasks/layout_task.cpp:29-177 | for any lines, cyclic or not, told from heights, lines and keys: levels are longest paths where no cycle is above; every node is in one column, not before its level; no column is empty, takes more than four slots or is out of display order; a node passes a column only if it is full, and then comes no later in the push order than whoever stays |
| `LayoutColumns.SlotsAreRows` | client/src/tasks/layout_task.cpp:43-48 | a plain node takes one slot, a container the standard heights of 150 that hold it, as far as four |
| `LayoutColumns.OrdersMeaning` | client/src/tasks/layout_task.cpp:114-132 | the display order is by more children, the push order by fewer, both then by key |
| `LayoutColumns.ColumnLimits` | client/src/tasks/layout_task.cpp:141-145 | no column holds more nodes than slots, or two nodes that take more than its slots between them |
| `Text.FindMeaning` | server/src/template/template_renderer.cpp:285-296 | `find` returns the first occurrence at or after its start, or there is none |
| `Template.SplitJoins` | server/src/template/template_renderer.cpp:272-332 | the literal and placeholder segments of a string, put together, are the string |
| `Template.SplitWellCut` | server/src/template/template_renderer.cpp:283-329 | text before a placeholder holds no opening braces, a placeholder no closing ones, and only the last segment can be text that starts with unclosed braces |
| `Template.SplitPlaceholder` | server/src/template/template_renderer.cpp:285-305 | a placeholder is what stands between `{{` and `}}`; what follows is cut up by itself |
| `Template.SplitText` | server/src/template/template_renderer.cpp:286-301 | text without braces is text, and so is an opening pair never closed |
| `Text.SpaceMeaning` | server/src/template/template_renderer.cpp:307-308 | white space is blank, tab, line feed, vertical tab, form feed and carriage return |
| `Template.SplitDotsJoins` | server/src/template/template_renderer.cpp:218-228 | a path is cut at every dot and nowhere else |
| `Template.CutPath` | server/src/template/template_renderer.cpp:218-228 | the cutting loop gives those parts |
| `Template.ResolveParamPath` | server/src/template/template_renderer.cpp:215-259 | the two loops find the value at the end of the path, or report the first missing name or non-object |
| `Template.FieldMeaning` | server/src/template/template_renderer.cpp:250-254 | the value under the first field of that name, or none if there is no such field |
| `Template.PathStep` | server/src/template/template_renderer.cpp:244-255 | a path with one name more goes one field deeper, and fails if there is no object or no such field |
| `Template.DotFreeKey` | server/src/template/template_renderer.cpp:310-323 | for a key without a dot the direct lookup and the path walk agree |
| `Template.TrimMeaning` | server/src/template/template_renderer.cpp:306-308 | trimming drops white space at both ends and nothing else |
| `Template.TrimKey` | server/src/template/template_renderer.cpp:306-308 | the two erasing loops compute that |
| `Template.RenderString` | server/src/template/template_renderer.cpp:272-332 | the position scan equals: split into segments, then substitute each placeholder once, left to right, stopping at the first that does not resolve |
| `Template.PlaceholderPrints` | server/src/template/template_renderer.cpp:334-352 | a string goes into the text as it is, a truth value as true or false, anything else as printed |
| `TemplateTrees.RenderFails` | server/src/template/template_renderer.cpp:121-171 | rendering fails exactly with the error of the first named path that does not resolve |
| `TemplateTrees.RenderSucceedsExactly` | server/src/template/template_renderer.cpp:121-171 | rendering succeeds iff every path the template names resolves |
| `TemplateTrees.NoPathsUnchanged` | server/src/template/template_renderer.cpp:121-171 | a template that names no parameter is returned as it is |
| `TemplateTrees.RenderDependsOnNames` | server/src/template/template_renderer.cpp:121-171 | parameter sets that agree on the root names in the template render it alike |
| `TemplateTrees.ValuesAreNotRescanned` | server/src/template/template_renderer.cpp:283-331 | when everything resolves, the result is the concatenation of what each segment contributes by itself, whatever the values look like |
| `TemplateTrees.InjectMeaning` | server/src/template/template_renderer.cpp:184-201 | an object whose only field is "$param" with a string is replaced by the value of that path, whatever its type |
| `TemplateTrees.RenderedForm` | server/src/template/template_renderer.cpp:127-171 | any other object keeps its keys in order, an array its length, text stays text and anything else as it is; members are rendered one by one |
| `TemplateValidator.ValidateAndResolve` | server/src/template/template_validator.cpp:40-76 | ok iff every required parameter is given and every given one has its type; the errors are the complaints in order; a name's value is the caller's, else the first default offered |
| `TemplateValidator.SettledExactly` | server/src/template/template_validator.cpp:48-68 | after a clean validation a name has a value iff it is given, required or has a default that is not null |
| `TemplateValidator.ValidatedRenders` | server/src/template/template_renderer.cpp:23-50 | with a clean validation and dot-free keys, rendering succeeds iff every key is provided in that sense |
| `TemplateValidator.ValidateAndRender` | server/src/template/template_renderer.cpp:19-50 | the two steps in sequence: the error list on a bad input, otherwise the rendering with the settled parameters |
| `WorkerSelection.CollectCandidates` | server/src/worker/worker_selector.cpp:18-41 | in any order of the table: exactly the alive, matching, not full workers, cooling ones only if asked |
| `WorkerSelection.PoolMeaning` | server/src/worker/worker_selector.cpp:8-41 | a pick chooses among the workers heard from within ten seconds, with room and serving the queue, that are not cooling down, or among all of these if they all are |
| `WorkerSelection.LessMeaning` | server/src/worker/worker_selector.cpp:43-48 | ids are ordered as in a dictionary |
| `WorkerSelection.CoolingPick` | server/src/worker/worker_selector.cpp:56-59 | if a picked worker is cooling down, every candidate is |
| `WorkerSelection.LeastLoadPick` | server/src/worker/worker_selector.cpp:52-71 | none iff no worker serves the queue; otherwise one that does, of those to choose among the one with fewest tasks, then smallest id |
| `WorkerSelection.LightestUnique` | server/src/worker/worker_selector.cpp:60-66 | that worker is unique, so the order of the table does not matter |
| `WorkerSelection.SortedMeaning` | server/src/worker/worker_selector.cpp:43-48 | sorting the candidates by id gives each exactly once, in strictly increasing order |
| `WorkerSelection.RoundRobinSelector.Pick` | server/src/worker/worker_selector.cpp:73-97 | the candidate at the clamped cursor in id order, and that queue's cursor moves one on, wrapping; no other cursor changes |
| `WorkerSelection.RoundRobinFair` | server/src/worker/worker_selector.cpp:86-96 | from any stored cursor, as many picks as there are candidates take each exactly once |
| `WorkerSelection.PruningKeepsPool` | server/src/worker/server_worker_registry.cpp:178-204 | pruning at a clock reading removes no candidate of that reading |
| `WorkerRegistry.PruningKeepsPicks` | server/src/worker/server_worker_registry.cpp:178-204 | so it changes no pick of either selector |
| `WorkerRegistry.PicksUnique` | server/src/worker/worker_selector.cpp:52-97 | a pick is determined by table, clock and cursor |
| `WorkerRegistry.ServerWorkerRegistry.MarkDispatchFailure` | server/src/worker/server_worker_registry.cpp:161-169 | only that worker's cooldown changes |
| `WorkerRegistry.ServerWorkerRegistry.PickWorkerForQueue` | server/src/worker/server_worker_registry.cpp:146-153 | the pick of the configured selector, with the table unchanged |
| `WorkerRegistry.ServerWorkerRegistry.PruneDeadWorkers` | server/src/worker/server_worker_registry.cpp:178-204 | exactly the workers silent for ten seconds and for longer than the limit, in whole milliseconds, are removed |
| `RemoteDispatch.DispatchNames` | server/src/execution/remote_strategy.cpp:209-394 | an attempt may be repeated iff there was no answer without cancel or deadline, or a 5xx status; Success iff a 2xx answer acknowledges; Canceled iff a cancel explains a missing answer; Timeout iff the deadline had passed; Failed otherwise |
| `RemoteDispatch.TryOnce` | server/src/execution/remote_strategy.cpp:173-199 | one attempt: a pick from the table as others left it, the mapped reply, a cooldown of five seconds iff retryable |
| `RemoteDispatch.Execute` | server/src/execution/remote_strategy.cpp:140-208 | at most 1 + max(0, retries) attempts, each to a worker serving the queue ("default" if none is named), stopping at the first that is not retryable, never after an observed cancel or timeout; the result is the last attempt's, the abort's, or Failed for want of a worker |
| `RemoteDispatch.StaysMarked` | server/src/worker/server_worker_registry.cpp:161-169 | an attempted worker stays marked for five seconds from its mark, other threads' marks included |
| `RemoteDispatch.RepeatOnlyWhenAllCool` | server/src/execution/remote_strategy.cpp:164-205 | inside the cooldown windows a worker is tried again only when every candidate is cooling down, for either selector |
| `RemoteDispatch.DistinctUntilAllTried` | server/src/execution/remote_strategy.cpp:164-205 | and with no marks but its own, only when every candidate has been tried or was cooling from the start |
| `RemoteDispatch.TraceIsFailover` | server/src/execution/remote_strategy.cpp:168-205 | every dispatch while other threads only mark cooldowns is such a chain of attempts |
| `RemoteDispatch.UndisturbedFailover` | server/src/execution/remote_strategy.cpp:164-205 | a dispatch left alone, started with nobody cooling down, never repeats a worker while some candidate is untried |
| `CronParser.ParseRange` | server/src/scheduler/cron_parser.cpp:172-222 | accepted iff the token is a range; the values are exactly those in the range at the step, in increasing order |
| `CronParser.RangeValues` | server/src/scheduler/cron_parser.cpp:214-219 | the filling loop gives exactly the covered values, in increasing order |
| `CronParser.ParseField` | server/src/scheduler/cron_parser.cpp:129-171 | accepted iff not empty and every token is a range; the values are non-empty, strictly increasing, and v is one iff some token covers v |
| `CronParser.SplitFields` | server/src/scheduler/cron_parser.cpp:86-114 | the scan gives the blank-separated words iff there are exactly five |
| `CronParser.Parse` | server/src/scheduler/cron_parser.cpp:84-122 | accepted iff five words, each a good field within its limits; the fields mean what the words say |
| `CronRoundTrip.StoiDigits` | server/src/scheduler/cron_parser.cpp:186-207 | digits are read after white space and a sign, whatever follows them; out of the 32-bit range there is no number |
| `CronRoundTrip.StoiNothing` | server/src/scheduler/cron_parser.cpp:186-207 | without a digit there is no number |
| `CronRoundTrip.StoiDecimal` | server/src/scheduler/cron_parser.cpp:186-207 | a decimal number is read back as itself, whatever follows it |
| `CronRoundTrip.TokenRoundTrip` | server/src/scheduler/cron_parser.cpp:172-222 | a star, a number or a span, with or without a step, is read as it is meant: every value, that value, every value between, or every so many from the first; it is refused exactly if a number is out of bounds, a span runs backwards or the step is zero or too large |
| `CronRoundTrip.FieldRoundTrip` | server/src/scheduler/cron_parser.cpp:129-171 | a field written as tokens is taken iff every token is, and then holds what some token stands for |
| `CronRoundTrip.CronRoundTrip` | server/src/scheduler/cron_parser.cpp:84-122 | any five lists of tokens are accepted iff each token suits its field (minutes 0 to 59, hours 0 to 23, days 1 to 31, months 1 to 12, days of the week 0 to 6), and are read back as what they stand for |
| `CronRoundTrip.EveryMinute` | server/src/scheduler/cron_parser.cpp:193-196 | five stars mean every minute |
| `CronNext.BaseExact` | server/src/scheduler/cron_parser.cpp:37-38 | the search starts at the first minute after now iff the clock is at or after the epoch or on a whole minute |
| `CronNext.ParsedFits` | server/src/scheduler/cron_parser.cpp:13-35 | every parsed value indexes its lookup table safely |
| `CronNext.Next` | server/src/scheduler/cron_parser.cpp:11-83 | the first of the next 525600 minutes whose local fields are all in the sets, or none iff there is none; and exactly when it is the earliest match after now |
| `TaskLogs.TaskLogBuffer.Append` | server/src/log/task_log_buffer.cpp:35-50 | the record gets the next number of its key; the buffer keeps exactly the last max records of the key's history and is touched now; the buffers of other keys, and their touch times, are untouched |
| `TaskLogs.TaskLogBuffer.Get` | server/src/log/task_log_buffer.cpp:72-97 | the page is the stretch of history from the start number or the oldest retained record, at most limit long (one record for limit 0), and the next start follows it, or stays if the page is empty |
| `TaskLogs.PageIsFull` | server/src/log/task_log_buffer.cpp:83-88 | for a limit of at least one a page has the smaller of the limit and the number of retained records from the start number on, and exactly the first so many of these |
| `TaskLogs.TaskLogBuffer.Tail` | server/src/log/task_log_buffer.cpp:99-114 | the last n of what is retained |
| `TaskLogs.TaskLogBuffer.PruneOlderThan` | server/src/log/task_log_buffer.cpp:121-130 | exactly the keys last touched longer ago than the limit are forgotten; the other buffers stay as they are |
| `TaskLogs.ReaderSound` | server/src/log/task_log_buffer.cpp:72-97 | with appends and reads interleaved in any way, a reader that follows nextFrom sees strictly increasing numbers, only genuine records, and misses only trimmed ones |
| `TaskLogs.ReadsDrain` | server/src/log/task_log_buffer.cpp:72-97 | with nothing appended, repeated reads give every retained record from the start number once, in order, and come to the end |
| `ThreadPool.DagThreadPool.Start` | server/src/dag/dag_thread_pool.cpp:28-44 | a running pool is left alone; otherwise n workers and no queued jobs |
| `ThreadPool.DagThreadPool.RaiseStop` | server/src/dag/dag_thread_pool.cpp:53 | the flag goes up before the lock is taken, for one caller only; queued jobs stay queued |
| `ThreadPool.DagThreadPool.ClearQueues` | server/src/dag/dag_thread_pool.cpp:54-59 | what is queued by then is discarded |
| `ThreadPool.DagThreadPool.Stop` | server/src/dag/dag_thread_pool.cpp:51-69 | the steps in sequence: with no other thread between them every queued job is discarded and the workers are gone |
| `ThreadPool.DagThreadPool.Enqueue` | server/src/dag/dag_thread_pool.cpp:82-86 | a job is accepted iff the pool is not stopping; the four queues still refine one list in order of arrival |
| `ThreadPool.DagThreadPool.Post` | server/src/dag/dag_thread_pool.cpp:78-90 | the two sections in sequence: an empty job is ignored, and after an accepted one the pool grows iff jobs outnumber the idle workers |
| `ThreadPool.DagThreadPool.SpawnLocked` | server/src/dag/dag_thread_pool.cpp:202-232 | one more worker iff jobs outnumber the idle workers and the pool is below four times its starting size, so the count stays within n and 4n, stopping or not |
| `ThreadPool.DagThreadPool.MaybeSpawnWorker` | server/src/dag/dag_thread_pool.cpp:198-233 | the flag is read first; then that section |
| `ThreadPool.DagThreadPool.TakeJob` | server/src/dag/dag_thread_pool.cpp:132-159 | the job taken is Critical if there is a Critical one, else High if there is one, Low only if there are no others, and the oldest of its group, also while the pool is stopping; none iff it is stopping and holds no job; every accepted job stays in exactly one of queued, taken, discarded |
| `ThreadPool.DagThreadPool.BeginJob` | server/src/dag/dag_thread_pool.cpp:116-118 | a worker counts itself busy while it runs a job, so no more are busy than there are, and the idle ones are the difference |
| `ThreadPool.MostUrgentUnique` | server/src/dag/dag_thread_pool.cpp:150-157 | there is only one such job |
| `ThreadPool.ForemostMeaning` | server/src/dag/dag_thread_pool.cpp:182-191 | it is the first job of the first of the four queues that is not empty |
| `ThreadPool.DrainOrder` | server/src/dag/dag_thread_pool.cpp:132-159 | takes until nothing is left return the Critical jobs, then High, then Normal and unknown together, then Low, each in order of arrival |
| `Retry.RunWithRetry` | server/src/runner/task_runner.cpp:88-206 | without a cancel: the attempts up to the first Success, Canceled or Timeout, or else retryCount + 1, the last one's result, and the closed-form total of the waits (base 1000 if none is given); no attempt starts after a cancel is observed |
| `Retry.SettlesOnce` | server/src/runner/task_runner.cpp:157-176 | the number of attempts is determined by their outcomes |
| `Retry.BackoffStep` | server/src/runner/task_runner.cpp:180-184 | the closed form base * (2^(k-1) - 1), or base * (k-1), adds up the waits |
| `Nesting.StoiToString` | server/src/dag/dag_service.cpp:144 | a depth written into a child's parameters is read back as itself |
| `Nesting.ChildDepth` | server/src/dag/dag_service.cpp:124-144 | whatever a child says about its own depth, it runs exactly one level below its parent |
| `Nesting.TopChildDepth` | server/src/dag/dag_service.cpp:72-81 | the children of any task, with or without a readable depth, run one level below what it claims |
| `Nesting.ChainBound` | server/src/execution/dag_strategy.cpp:28-36 | along any chain of DAG and template tasks, from any first task, the depth rises by one per level from its claim and the chain stops at the limit |
| `Nesting.RunAll` | server/src/execution/template_strategy.cpp:46-98 | running any task ends, even a template that calls itself, and nothing below a claim under the limit runs deeper than the limit |
| `Nesting.ChildrenMeaning` | server/src/dag/dag_service.cpp:135-155 | below the depth of 10 a task has one child for each task of its body or rendered template, in order and of the same kind; a leaf, or a task at that depth, has none |
| `Nesting.RunAllExactly` | server/src/dag/dag_service.cpp:138-155 | a run is the task and then what each child runs, in order, and nothing else |
| `Nesting.RunAllClosed` | server/src/dag/dag_service.cpp:138-155 | whatever is run has all its children run too |
| `Nesting.ChainIsRun` | server/src/dag/dag_service.cpp:138-155 | every chain of children from a task ends in a task that is run |
| `Nesting.RunIsChained` | server/src/dag/dag_service.cpp:138-155 | every task that is run is the end of such a chain, so the depth bounds of chains cover the run |
| `Nesting.LimitKeptExactly` | server/src/dag/dag_service.cpp:124-144 | nothing below a task runs deeper than the limit iff its claim is under the limit or it runs nothing |
| `Nesting.LimitExceeded` | server/src/dag/dag_service.cpp:130-133 | a DAG submitted with a depth of 10 of its own has a child that runs at depth 11 |
| `Nesting.BoundReached` | server/src/execution/template_strategy.cpp:46-98 | a template that calls itself, submitted without a depth, makes a chain of exactly the length the bound allows |

## Left out

- Delivery of condition-variable notifications, executor lifetime and relaxed memory orders: a wait is its predicate.
- HTTP, WebSocket, SQLite, process control, files and configuration: task outcomes, replies and clock readings are parameters.
- Per-node runner configuration, result messages, durations and exit codes: carried along by the code, not looked at by it.
- The end of `TemplateRenderer::render` (`exec_type` and task-id checks) and `StringToParamType`: easy case analysis.
- JSON numbers and dumps: printing of values other than strings and booleans is a parameter; an object is its list of fields.
- Edge direction in the layout after overflow, coordinates and painting: a parent may be pushed to or past its child's level.
- LayoutColumns.LayoutNodes: node keys are only compared, so a key stands for its rank.
- CronParser.ParseRange: integers are unbounded, where a step close to 2^31 overflows the loop variable in the code.
- RemoteDispatch.Execute: the attempt limit is unbounded, where a configured 2^31 - 1 retries overflows in the code; other threads may change the table between attempts but not the round-robin cursors.
- Retry.RunWithRetry: exponential mode is stated for at most 31 retries, beyond which the shift by the attempt number is not meaningful in the code.
- Nesting.TopChildDepth: a claimed depth of 2^31 - 1 overflows in the code and is excluded; the depth is local, since a payload sent to a remote worker does not carry it.
- TaskLogs.TaskLogBuffer.Append: sequence numbers are unbounded, where the code's are 64 bits wide.
- ThreadPool.DagThreadPool.TakeJob: the wait is its predicate; joining is the predicate under which workers leave, and `start` is one step.
- Registration, removal and heartbeats of workers and clearing of a log are modelled as methods that keep the invariants; they have no row, since their contracts are the assignments.
- Cooldown across re-registration (a new record has its own), the sweeper thread, and the choice of selector by name.
- The cron scheduler loop, handlers, authentication, repositories, the legacy task runner and worker pool, and the Qt client apart from the layout.
