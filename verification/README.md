# Workflow scheduler: verified model

This project models the part of the workflow scheduler that decides what runs, when, and what is recorded, and
proves what every run of it keeps. It has five parts.

**The DAG executor.** `Graph` is validation with its depth-first cycle search. `Plans` builds the lookup tables and
`Scheduling` gives the run loop as a state machine: an execution is a list of events (a task is taken off the queue,
a result arrives, the context becomes done, the loop is left) with all nondeterminism in the events. `Invariants` and
`Steps` prove what each event keeps; `Safety`, `Queueing`, `Verdicts`, `FailFast` and `Confluence` prove properties of
whole executions, the last against a recursive evaluation of the graph that knows nothing of queues or counters. `RunLoop` is
the imperative loop itself, proved to take only steps of the machine. `Conditions`, `Templates`, `Retry` and
`Compensation` cover what the loop calls, and `Expansion` says exactly when template resolution ends. `Pairs` and
`OffPath` hold concrete runs that show what the loop does not promise.

**The leased run queue.** `Jobs` says what each operation does to the job table and the transition log.
`MemoryQueue` is the in-memory queue, method by method, against that; `Audit` proves that the log accounts for the
jobs after any operations. `Paging` is the API server's page-collection loops and the cancelling of a whole run.

**Worker sessions.** `Sessions` lets any number of sessions, with stale copies of their jobs, act on the queue among
clients; it proves the bound on attempts. `Leases` proves when a job has only one session. `Worker` is the service,
and `Backoff` its delay in 64-bit arithmetic.

**The SQLite queue.** `Sqlite` is the second queue, with guarded row updates; `Simulation` proves that both queues go
through the same job tables.

**The trigger service.** `Triggers` is its bookkeeping as a state machine with properties of all runs, `Schedules` says
exactly which acts keep live triggers and registered schedules in agreement, and `Scheduler` is the class.

Besides the methods listed below, every other operation of the classes `MemoryQueue.MemoryRunQueue`,
`Sqlite.SQLiteStore` and `Scheduler.Service` is proved to make the state that `Jobs.Apply`, `Sqlite.Run` and
`Triggers.Apply` give, which is what the lemmas about whole runs speak of.

## What turned out not to hold

- Fail-fast does not keep tasks that are already queued from being started (`FailFast.StartsAfterTrigger`). After the
  trigger a task is started exactly when there is room and the head of the queue is not blocked, skipped or refused
  (`FailFast.StartsNextIff`, and up to the next select `FailFast.DrainStartsIff`). What it does do is fail the run
  (`Verdicts.Verdict`).
- `allowFailure` lets dependents run, but the run still ends FAILED.
- On cancellation, tasks in flight are recorded as SKIPPED.
- Conditions may name tasks that neither depend on the task nor are depended on by it; then the interleaving can decide
  (`OffPath.OffPathConditionSplits`). A condition on the task itself, or on one that depends on it, is never met by any
  interleaving, and all runs agree (`Confluence.TwoRunsAgree`).
- Template resolution can run for ever on a task output that contains a template (`Templates.SelfReferenceDiverges`).
  Over texts made of inert text and whole templates, sound or not, it ends exactly when no circle of references is
  reached before the first error (`Expansion.SettlesIff`).
- Compensation undoes dependents first only up to ties of the clock (`Compensation.ReverseTopologicalIff`).
- Sparing leased jobs from purging does not make sessions exclusive: a cancelled job may be purged and its ID enqueued
  again while its session still works (`Leases.ReuseBreaks`). `Leases.StepSoleIff` says exactly which acts end
  exclusive ownership: enqueueing the ID of a purged job under a live session, and handing a job out under one, which
  timely heartbeats rule out. Throughout a run every live session is alone on a job of its own exactly when neither
  happens (`Leases.SoleIff`), and with timely heartbeats exactly when no ID is reused (`Leases.PunctualSoleIff`),
  whatever is purged.
- A session that lost its lease can still close the job, whichever way its run ended (`Leases.LatenessBreaks`). The
  first such close needs a job handed out under a live session (`Leases.TakenCanBeClosed`); until then a session closes
  nobody's lease but its own (`Leases.ClosesOwn`).
- The worker's backoff is right up to attempt 34 and at eight later ones, and no wait at all at the others
  (`Backoff.DelayAsIntended`).
- A workflow unregistered while `Start` goes through its copy of the jobs keeps a live trigger
  (`Schedules.UnregisterDuringStart`). `Schedules.StepFaithfulIff` says exactly which acts do this kind of harm.
- One schedule that allows overlap lets others of the workflow overlap too (`Triggers.MixedOverlap`).
- Line 218 of `internal/engine/executor.go` is dead code: `RunLoop.RunToEnd` does without it.

## Model

| member | source | states |
|---|---|---|
| Graph.HasCycle | internal/engine/graph.go:96-139 | for every map order, true exactly when some task transitively depends on itself; false comes with a numbering under which dependencies come first |
| Graph.Search.Visit | internal/engine/graph.go:114-131 | the recursive visit ends, reports a cycle only when a closed walk exists, and otherwise lists each node after all its successors |
| Graph.RankedIsAcyclic | internal/engine/graph.go:96-139 | a numbering that grows along every dependency rules out every cycle |
| Graph.LoopIsCycle | internal/engine/graph.go:114-131 | what the search meets when it reaches a node under visit is a cycle of the dependency relation |
| Graph.FinishingOrderRanks | internal/engine/graph.go:114-131 | the reverse of the order in which the search finishes nodes is topological |
| Graph.ValidateWorkflow | internal/engine/graph.go:11-57 | accepts exactly the workflows with an ID, tasks, unique IDs, known dependencies and condition references and no cycle; an error names a defect that is there |
| Graph.AcceptedIff | internal/engine/graph.go:11-94 | what acceptance asks, said of the workflow's own fields and of the text of each condition |
| Graph.CheckTask | internal/engine/graph.go:32-50 | the per-task checks fail exactly for unsound tasks, and the error is justified |
| Conditions.Check | internal/engine/graph.go:59-94 | a condition passes exactly when it parses and each task it reads is named and known |
| Conditions.CheckIff | internal/engine/graph.go:59-94 | a condition passes exactly when its trimmed text is empty, `always`, or one of the three prefixes followed by the name of a known task, for the last with a colon behind the name |
| Conditions.EvaluateIff | internal/engine/executor.go:492-531 | a task may run exactly when its condition's trimmed text is empty or `always`, or names a task recorded with the status it asks for, or one whose output contains the text behind the first colon |
| Conditions.EvaluateReadsOnly | internal/engine/executor.go:492-531 | a decision depends on nothing but the results of the tasks the condition names |
| Conditions.EvaluateMonotone | internal/engine/executor.go:492-531 | a condition once met stays met when results are added |
| Conditions.ReasonInert | internal/engine/executor.go:492-531 | a reason for skipping cannot bring a template about when the condition cannot |
| Templates.ResolveValue | internal/engine/executor.go:545-592 | the rewriting loop returns what resolution means, or has not ended after the watched replacements |
| Templates.ResolveBy | internal/engine/executor.go:545-592 | the meaning of a template does not depend on how long the rewriting is watched |
| Templates.BraceFreeSettles | internal/engine/executor.go:545-592 | rewriting ends whenever no text that a `{…}` group of the value itself stands for contains an opening brace; other results may hold anything |
| Templates.SelfReferenceDiverges | internal/engine/executor.go:545-592 | an output that is its own template is rewritten for ever |
| Templates.RescanIsOnePass | internal/engine/executor.go:545-592 | rescanning equals one left-to-right substitution, errors included, when the texts the value itself asks for are inert (hold no `${` and do not end in `$`) and no `$` stands before a template in it |
| Templates.ResolveLocal | internal/engine/executor.go:545-592 | adding results does not change a resolution that missed none of them |
| Templates.ResolveUnknown | internal/engine/executor.go:569-574 | a task reported as unknown has no result, and the text reported as unclosed is the value as it stands in the workflow |
| Templates.LookUpIff | internal/engine/executor.go:563-586 | a token stands for something exactly when it is a known task and `output`, `status` or `error` around its only dot, blanks aside |
| Templates.NamedStaysWithin | internal/engine/executor.go:545-592 | a value in which no `$` stands before a template, that asks for inert texts and names none of some tasks save known ones, resolves or fails without looking for any of them |
| Expansion.RewriteExpands | internal/engine/executor.go:551-589 | on texts made of inert text and whole templates, sound or not, the rewriting loop ends within so many replacements exactly when expanding the templates does |
| Expansion.SlotResolves | internal/engine/executor.go:551-589 | a template between inert texts resolves to the output, the error, or SUCCESS, FAILED or SKIPPED |
| Expansion.CircularNeverEnds | internal/engine/executor.go:551-589 | a value from which a field that leads back to itself is reached is rewritten for ever |
| Expansion.CircleOrShallow | internal/engine/executor.go:551-589 | references that are reached either come back to a field or are at most as deep as there are fields |
| Expansion.SettlesIff | internal/engine/executor.go:545-592 | resolving a value ends, with a text or an error, exactly when it reaches no circle of references |
| Expansion.AllSettleIff | internal/engine/executor.go:545-592 | every value over the results resolves exactly when no field leads back to itself |
| Templates.ResolveInputTemplates | internal/engine/executor.go:533-543 | for every map order: all entries resolved, or the error of some entry that fails |
| Plans.Build | internal/engine/executor.go:86-102 | the tables list every dependency occurrence once under its dependency, and counters start at the number of dependencies |
| RunLoop.Loop.ZeroCounts | internal/engine/executor.go:104-109 | the queue starts with exactly the tasks without dependencies, each once, for every map order |
| RunLoop.Loop.CountDown | internal/engine/executor.go:142-170 | counting a finished task's dependents down queues exactly those that reach zero |
| RunLoop.Loop.PopHead | internal/engine/executor.go:126-211 | one round of the inner loop is one step of the machine for the task at the head of the queue |
| RunLoop.Loop.TakeResult | internal/engine/executor.go:231-254 | handling one received result is one step of the machine |
| RunLoop.Drain | internal/engine/executor.go:125-212 | the inner loop takes steps until the limit is reached or the queue is empty |
| RunLoop.Select | internal/engine/executor.go:214-255 | one turn of the outer loop takes steps of the machine, by either branch of the select |
| RunLoop.RunToEnd | internal/engine/executor.go:124-256 | the outer loop ends, and how it got there is an execution of the machine |
| RunLoop.Compensate | internal/engine/executor.go:270-277 | when compensation runs, on what, and which status it is given |
| RunLoop.RunWithID | internal/engine/executor.go:45-268 | an invalid workflow is refused; any other run is an execution of the machine, with never more actions in flight than the workflow allows, whose last state determines results and status; a recorded task was held back exactly when a dependency was held back, had bad templates, or failed without being allowed to, and fail-fast triggered exactly for a failure that is not allowed; left without cancellation, each task ends as the recursive evaluation with the same actions says; a failed or cancelled run that asks for it undoes exactly the tasks that succeeded and name a compensation action, the latest first, dependents first exactly when no tie of finish times contradicts the IDs; no other run undoes anything |
| Steps.StepKeeps | internal/engine/executor.go:124-256 | every event keeps the invariant: places of tasks, counters, blocking, causes, start history, fail-fast, dates |
| Steps.AlwaysInv | internal/engine/executor.go:104-256 | the invariant holds in every state of every execution |
| Safety.Conservation | internal/engine/executor.go:86-256 | waiting, ready, active and completed tasks add up to all tasks; counters equal unrecorded dependencies; the active are those in flight and stay within the limit; sends never exceed the channel's capacity |
| Safety.WriteOnce | internal/engine/executor.go:130-254 | a recorded result, its cause and the start history never change |
| Queueing.FirstInFirstOut | internal/engine/executor.go:104-254 | tasks are taken off the queue in the order in which they were put in it: later on, the first so many of a queue are started or recorded and the others stand at the front |
| Safety.NoStall | internal/engine/executor.go:214-219 | with nothing active and nothing ready, every task has its result |
| Safety.LeftComplete | internal/engine/executor.go:124-256 | without cancellation there is exactly one result per task |
| Safety.Progress | internal/engine/executor.go:124-256 | while the loop runs an event other than cancellation is possible, unless a template never resolves |
| Safety.HeldBackAlways | internal/engine/executor.go:130-248 | in every state a recorded task is skipped for upstream failure exactly when a direct dependency was itself, had bad templates, or failed without `allowFailure`; fail-fast has triggered exactly when asked for and some task failed without `allowFailure` |
| Safety.PopMeans | internal/engine/executor.go:130-211 | a task taken off the queue that is not blocked is skipped for its condition exactly when what the text asks for is false, fails exactly when it is true and an entry of its input is rejected, with that error, and is otherwise started with each entry resolved |
| Safety.ReceiveMeans | internal/engine/executor.go:231-248 | a received result is recorded with the dates of its own execution, and triggers fail-fast exactly when it is a failure that is not allowed and fail-fast is asked for |
| Safety.RecordedAlways | internal/engine/executor.go:130-211 | what a result looks like, for each of the four ways it can come about |
| Safety.Terminates | internal/engine/executor.go:124-256 | every execution has at most two events per task and two more |
| Safety.PassedIsClear | internal/engine/executor.go:130-149 | whatever was started or evaluated has all its transitive dependencies recorded, none of them blocking |
| Safety.BlockedForGood | internal/engine/executor.go:130-199 | once a task blocks, no transitive dependent is ever started, on any interleaving, and each one recorded is skipped for that reason |
| Verdicts.BlockedEndsSkipped | internal/engine/executor.go:130-199 | however the run ends, every transitive dependent of a blocking task ends SKIPPED |
| Safety.StartedMet | internal/engine/executor.go:152-211 | the condition of a started task, as its text says, holds of the results, then and later |
| Safety.RoutesExclude | internal/engine/executor.go:492-514 | at most one of an `on_success:x` and an `on_failed:x` task is ever started |
| Safety.FailureRouteNeedsAllowance | internal/engine/executor.go:237-248 | an `on_failed:x` task that depends on x is started only if x allows failure and failed in its own action |
| Verdicts.MarkUnfinishedTasksAsSkipped | internal/engine/executor.go:594-613 | every task gets an entry, existing ones are kept, added ones are SKIPPED for the given reason or as not executed |
| Verdicts.DeriveFinalStatus | internal/engine/executor.go:392-408 | FAILED exactly when there are no results or one failed, for every map order |
| Verdicts.Verdict | internal/engine/executor.go:221-268 | results cover exactly the tasks; under fail-fast a recorded critical failure makes the run FAILED by either branch; it is CANCELLED exactly when left through cancellation without one; it succeeds exactly when not left through cancellation and nothing failed |
| FailFast.TriggeredPops | internal/engine/executor.go:125-212 | after the trigger, while there is room and the queue is not empty, only taking tasks off the queue is possible |
| FailFast.StartsNextIff | internal/engine/executor.go:125-211 | after the trigger the next event starts a task exactly when there is room and the head of the queue is neither blocked, skipped nor refused |
| FailFast.DrainStartsIff | internal/engine/executor.go:125-247 | from the trigger to the next select nothing is started exactly when no task reached on the way is to start; if the run is then left, that is final |
| FailFast.StartsAfterTrigger | internal/engine/executor.go:125-247 | an accepted workflow whose second task is started after the first failed and triggered fail-fast |
| Confluence.BranchAsJudged | internal/engine/executor.go:130-211 | a task that reaches the head of the queue takes the branch the recursive evaluation gives it |
| Confluence.RecordedKinds | internal/engine/executor.go:126-175 | when a task is taken off the queue only its transitive dependencies, all of them, and tasks whose place in the order is open are recorded |
| Confluence.AlwaysMatches | internal/engine/executor.go:104-256 | everything recorded in any state of any execution is what the recursive evaluation says |
| Confluence.Confluent | internal/engine/executor.go:104-256 | an uncancelled run ends with every task exactly as evaluated, for every interleaving and limit |
| Confluence.TwoRunsAgree | internal/engine/executor.go:104-256 | two runs of the same tasks under any limits agree on status, output and attempts of every task |
| Confluence.NamesOrderedSuffices | internal/engine/executor.go:152-175 | a condition readable off the workflow suffices: conditions and templates name no task whose place in the order is open, no `$` stands before a template, and the fields that templates ask transitive dependencies for are inert; other outputs may hold anything |
| Confluence.AboveIffUpstream | internal/engine/executor.go:91-97 | the tasks an evaluation looks at are those from which a chain of dependencies leads to the task |
| OffPath.OffPathConditionSplits | internal/engine/graph.go:59-94 | an accepted workflow of two tasks, the second with a condition on the first but no dependency: two complete runs with the same actions end with the second skipped and with it successful |
| Retry.RunTask | internal/engine/executor.go:422-490 | at most the policy's attempts are made, or one; the outcome and the error text; each attempt before the last failed plainly and was waited out |
| Retry.SucceedsIff | internal/engine/executor.go:449-483 | a task succeeds exactly when an attempt within the limit does, the first being always within it, and all before it failed in a way that lets the next follow |
| Ordering.SortedUnique | internal/engine/executor.go:326-333 | a collection has one sorted list, so the order of iterating a map is forgotten |
| Ordering.TextBeforeIff | internal/engine/executor.go:326-333 | the order of IDs: a proper prefix first, else the smaller character at the first difference |
| Ordering.Sort | internal/queue/memory_queue.go:262-267 | the sorted permutation by time and then ID |
| Compensation.RunCompensation | internal/engine/executor.go:305-341 | exactly the successful tasks that name a compensation action are compensated, the latest first, and each report is right, up to the first task whose input is still being resolved after the watched replacements |
| Compensation.RunCompensationTask | internal/engine/executor.go:343-390 | what one compensation reports: missing action, the error of a rejected entry, or the action's outcome on the resolved input with one attempt; or that its input is still being resolved |
| Compensation.DeriveCompensationStatus | internal/engine/executor.go:293-303 | SKIPPED without reports, FAILED exactly when one failed |
| Compensation.Arrange | internal/engine/executor.go:305-333 | the eligible tasks, each once, in the one order, for every map order |
| Compensation.OrderMeans | internal/engine/executor.go:312-333 | the order holds exactly the tasks that succeeded and whose compensation action is not blank, later finishes first and greater IDs first among equals |
| RunLoop.CompensatedMeans | internal/engine/executor.go:270-341 | the same of a whole run: only a failed or cancelled run that asks for it undoes tasks, and those are the workflow's |
| Compensation.UndoOrderUnique | internal/engine/executor.go:312-333 | the order is determined by the results, not by the map order |
| Compensation.SkippedAreNotUndone | internal/engine/executor.go:258-271 | entries added for unfinished tasks play no part in compensation |
| Compensation.ReverseTopologicalIff | internal/engine/executor.go:312-333 | after any run dependents are undone before their dependencies exactly when no tie of finish times contradicts the IDs |
| MemoryQueue.MemoryRunQueue.LeaseNextRunJob | internal/queue/memory_queue.go:68-99 | a queued job that is available or a leased one whose lease has expired is handed out, none of them older, or there is none; an unexpired lease is never handed out |
| Jobs.Effects | internal/queue/memory_queue.go:68-251 | for each operation on a stored job, in which statuses it is accepted and the job it leaves, field by field |
| MemoryQueue.MemoryRunQueue.Collect | internal/queue/memory_queue.go:288-306 | the jobs that pass a filter, each once, for every map order |
| MemoryQueue.MemoryRunQueue.ListRunJobs | internal/queue/memory_queue.go:253-282 | one page of the listing of the jobs of a status, oldest first |
| MemoryQueue.MemoryRunQueue.ListRunJobsFiltered | internal/queue/memory_queue.go:284-329 | one page of the listing of the jobs that have the status and the two IDs and were updated in the window, oldest first |
| MemoryQueue.MemoryRunQueue.ListRunJobsByRun | internal/queue/memory_queue.go:358-387 | one page of the listing of a run's jobs, oldest first |
| MemoryQueue.MemoryRunQueue.CountRunJobsFiltered | internal/queue/memory_queue.go:331-356 | the number of jobs that have the status and the two IDs and were updated in the window |
| MemoryQueue.MemoryRunQueue.PurgeRunJobs | internal/queue/memory_queue.go:400-442 | of the jobs of the status last updated at or before `now - olderThan`, the least recently updated, up to the limit, disappear with their logs, and nothing else does |
| MemoryQueue.ListingUnique | internal/queue/memory_queue.go:308-313 | a listing is determined by the jobs and the filter |
| MemoryQueue.ListedOldestFirst | internal/queue/memory_queue.go:308-313 | a listing is ordered by creation time and then by ID |
| MemoryQueue.KeptByFilter | internal/queue/memory_queue.go:288-306 | the jobs a filter keeps, test by test |
| MemoryQueue.PurgedAre | internal/queue/memory_queue.go:405-430 | the candidates of a purge, least recently updated first |
| Paging.ListAllRunJobsPaged | internal/api/server.go:1403-1424 | for every page size the loop ends with exactly the filtered jobs, once each, in order, as many as the filtered count |
| Paging.JobsOfRun | internal/api/server.go:1065-1081 | the loop ends with exactly the run's jobs, once each, in order |
| Paging.CancelRun | internal/api/server.go:1082-1094 | exactly the run's jobs that have neither succeeded nor been cancelled are cancelled, with one log entry each, nothing else changes, and the response lists the run's cancelled jobs, oldest first |
| Paging.ListingLength | internal/queue/memory_queue.go:331-356 | the length of a listing is the filtered count |
| Audit.StepAudits | internal/queue/memory_queue.go:23-251 | every operation keeps jobs and logs in agreement |
| Audit.AlwaysAudited | internal/queue/memory_queue.go:23-442 | after any operations jobs and logs have the same keys, each log is a legal path to the job's status, attempts are its entries into LEASED and the replay count its replays |
| Audit.Settled | internal/queue/memory_queue.go:120-162 | a succeeded or cancelled job and its log never change again until purged |
| Audit.HistoryKept | internal/queue/memory_queue.go:524-533 | a log is only ever extended, until purged |
| Audit.PickupsBounded | internal/queue/memory_queue.go:68-251 | along a legal path a job is picked up at most once per time it was put in the queue |
| Audit.AttemptsBounded | internal/queue/memory_queue.go:68-251 | attempts are at most one plus retries, replays and takeovers in the log |
| Sessions.AttemptsAccounted | internal/worker/service.go:88-219 | for any number of sessions, however stale, attempts of a job that is not purged are at most max(1, MaxAttempts) plus replays plus takeovers |
| Sessions.AlwaysAccounted | internal/worker/service.go:185-204 | sessions of a job have distinct attempt numbers, and each retry in the log belongs to a session below the maximum |
| Sessions.AttemptsPositive | internal/worker/service.go:185-187 | a session's attempt number is at least one, so the backoff's shift count is never negative |
| Leases.SingleSession | internal/worker/service.go:110-133 | with heartbeats on time and no ID reused under a live session, no two sessions work on one job, whatever is purged |
| Leases.StepSole | internal/queue/memory_queue.go:68-118 | no other act takes a live session's job: it stays gone, cancelled, or leased to it until its next heartbeat is overdue |
| Leases.StepSoleIff | internal/queue/memory_queue.go:23-118 | an act keeps every live session alone on a job of its own exactly when it neither reuses the ID of such a job nor hands it out; with timely heartbeats exactly when it does not reuse the ID |
| Leases.SoleIff | internal/worker/service.go:88-219 | throughout a run every live session is alone on a job of its own exactly when no ID is reused and no job handed out under a live session |
| Leases.PunctualSoleIff | internal/worker/service.go:110-133 | with heartbeats on time, exactly when no ID is reused under a live session |
| Leases.ClosesOwn | internal/worker/service.go:164-218 | until then a session that closes a leased job closes its own lease |
| Leases.TakenCanBeClosed | internal/queue/memory_queue.go:120-226 | once a job is handed out under a live session, that session can close the new lease, whichever way its run ends |
| Leases.ReuseBreaks | internal/queue/memory_queue.go:400-442 | purging a cancelled job and enqueueing its ID again can give two live sessions, all heartbeats on time |
| Leases.LatenessBreaks | internal/queue/memory_queue.go:120-138 | a late heartbeat gives two live sessions, and the overtaken one can close the job leased to the other, whichever way its run ends |
| Worker.Service.Close | internal/worker/service.go:164-218 | the operation a session closes with, whose effect `Worker.CloseMeans` spells out |
| Worker.CloseMeans | internal/worker/service.go:164-218 | the status, the error text and the log entry a session leaves, and when its job is available again: after a failure below the maximum, in min(2^(attempts-1), 30) seconds up to attempt 34 and at eight later ones, at once at the others |
| Worker.Service.ProcessOne | internal/worker/service.go:88-219 | undisturbed, one call takes one job to the status its ending calls for, with the error of the executor, else of the run, else "run failed", and the wait that `Worker.CloseMeans` gives; it logs exactly the lease and the close, and touches no other job |
| Backoff.EarlyDelay | internal/worker/service.go:187-190 | up to attempt 34 the delay is min(2^(attempts-1), 30) seconds |
| Backoff.EarlyMonotone | internal/worker/service.go:187-190 | up to attempt 34 the delay never decreases |
| Backoff.LateDelay | internal/worker/service.go:187-190 | from attempt 56 on the delay is zero |
| Backoff.ProductAt | internal/worker/service.go:187-187 | the wrapped products of attempts 34 to 56 |
| Backoff.DelayAsIntended | internal/worker/service.go:187-190 | exactly the attempts with the intended delay; at all others it is zero or negative |
| Sqlite.SQLiteStore.SelectNext | internal/store/sqlite_store.go:515-518 | a selectable row that none selectable predates, or there is none |
| Sqlite.SQLiteStore.LeaseNextRunJob | internal/store/sqlite_store.go:505-551 | the row selected is the row updated; the lease is never lost inside the transaction |
| Simulation.StepSimulates | internal/store/sqlite_store.go:442-684 | each operation takes related queues to related queues: same job table, and same logs but for repeated submissions |
| Simulation.RunsAgree | internal/store/sqlite_store.go:442-684 | given the same operations both queues stay related |
| Simulation.SameChoices | internal/store/sqlite_store.go:515-518 | both queues may lease the same jobs: asking for availability of expired leases is redundant, since a leased job is available |
| Simulation.SameReplies | internal/store/sqlite_store.go:553-684 | both accept or both refuse, except that only SQLite refuses to cancel twice |
| Triggers.AlwaysBound | internal/scheduler/service.go:218-257 | after any acts the live triggers are exactly those in the cron and interval maps |
| Triggers.OneTrigger | internal/scheduler/service.go:218-257 | two live triggers of a workflow are the same trigger |
| Triggers.UnregisterStops | internal/scheduler/service.go:144-152 | unregistering leaves the workflow no live trigger |
| Triggers.AlwaysSorted | internal/scheduler/service.go:218-257 | cron expressions are only ever given to the cron engine and other schedules to interval goroutines |
| Schedules.StepFaithfulIff | internal/scheduler/service.go:108-189 | an act keeps every live and pending trigger a registered schedule exactly when it replaces or unregisters no pending copy and loads no file that lacks a live or pending one |
| Schedules.FaithfulIff | internal/scheduler/service.go:108-189 | throughout a run every live trigger and every copy still to be started is a registered schedule exactly when every act is harmless |
| Schedules.StepCompleteIff | internal/scheduler/service.go:154-189 | an act leaves no schedule of a leader without a trigger exactly when its cron expression is accepted, or another copy is to come, and a loaded file has nothing that is not live or pending |
| Schedules.CompleteIff | internal/scheduler/service.go:154-189 | in a harmless run no schedule is left out exactly when every act is covering |
| Schedules.SchedulesAreLive | internal/scheduler/service.go:108-189 | in a run of harmless and covering acts, once a leader has started its copies, the live triggers are exactly the registered schedules |
| Schedules.UnregisterDuringStart | internal/scheduler/service.go:170-188 | unregistering between the copy of the jobs and their start leaves a live trigger for an unregistered workflow |
| Triggers.NoOverlap | internal/scheduler/service.go:281-298 | if every executed config of a workflow forbids overlap, at most one execution is in flight, and exactly while the workflow is marked as running |
| Triggers.EnterIff | internal/scheduler/service.go:281-292 | a trigger that fires begins an execution exactly when the workflow is not paused and is not marked as running, or the config allows overlap; else nothing changes |
| Triggers.EntersUnlessBusy | internal/scheduler/service.go:281-298 | if overlap is forbidden throughout, a trigger that fires is ignored exactly while the workflow is paused or has an execution in flight |
| Triggers.PausedIff | internal/scheduler/service.go:67-87 | which workflows are paused after an act |
| Triggers.PauseStops | internal/scheduler/service.go:67-87 | once a registered workflow is paused, no execution of it begins until it is resumed or unregistered or a file is loaded |
| Triggers.MixedOverlap | internal/scheduler/service.go:281-298 | a config that allows overlap lets one that forbids it overlap |
| Scheduler.Service.Register | internal/scheduler/service.go:108-131 | refuses a missing workflow ID and both or neither of interval and cron expression; else the schedule is stored, and an error says that the running service's cron engine does not accept it |
| Scheduler.Service.Enter | internal/scheduler/service.go:281-292 | begins an execution unless the workflow is paused, or is marked as running and the config forbids overlap |
| Scheduler.Service.Start | internal/scheduler/service.go:154-175 | a second start does nothing; the first loads the file, copies the jobs, each once in some order, and only a leader starts them |

## Left out

- Templates.ResolveValue: the source loop has no bound and may not return; the method is watched for `patience` replacements and says when it has not ended by then. What the loop means, not returning included, is stated without that bound.
- Compensation.RunCompensation: stops where an input is not resolved within the watched replacements, because the source might then not return.
- RunLoop.RunWithID: the error text of the run and saving the run are not part of the result. Each task's action is a function of the task and its resolved input, which excludes nothing since a task is started at most once; that it succeeds or fails is what `Retry.RunTask` proves of `runTask`.
- MemoryQueue.MemoryRunQueue.CountRunJobsFiltered: the counts by status and the listings of transitions are not modelled; they add the same filter again.
- Sessions.AttemptsAccounted: the session that finds its workflow missing is one that closes without heartbeats; loading workflows is not part of this model.
- Expansion.SettlesIff: covers texts made of inert text and whole templates; a template that is never closed, or is put together from several texts, is covered by `Templates.BraceFreeSettles` only.
- Confluence.NamesOrderedSuffices: no converse is stated; whether an unordered task is recorded first can be settled by the queue itself, which is first in, first out, so that a task without dependencies is always taken off before one with.
- Compensation.ReverseTopologicalIff: the executor's clock is taken never to go back; the source dates results with wall-clock times in UTC, which can.
- Leases.StepSoleIff: leases last at least two nanoseconds, so that half a lease is a positive interval; a heartbeat's delay is counted from the moment of the lease.
- Schedules.FaithfulIff: what happens to live triggers when the service's context is done is not modelled; until then the claim is as stated.
- Queue errors are told apart by kind, not by text.
- Queue operations happen at one instant; the source reads the clock several times in one operation.
- Times are unbounded integers in nanoseconds except where the SQLite queue stores them, where Go's zero time wraps; sums of times and durations do not saturate, and `offset + limit` does not overflow.
- Job statuses are the six of the code base and the unset one; other texts, which nothing writes, are not modelled.
- The statements of one SQLite operation are not interleaved with other operations, so the status a log row was read with is never stale.
- SQLite's own listings and its choice of rows to purge order by one column only and leave ties to the database.
- The context of a run becomes done at any moment, but is noticed only where the loop selects; waiting for `runAfter` and between retries takes no part, and the retry waits of `runTask` are not computed.
- Built-in actions, action timeouts, `UpstreamRef`, durations and the choice of the error a failed run reports.
- Strings are sequences of Unicode characters, not bytes; no operation modelled here tells them apart on valid text.
- HTTP handlers, authentication, decoding, workflow loading, SQL text, transactions, migrations, telemetry, ID generation, the cron library, tickers, the schedule file and the leader lock.
