# Verified model of the shrimp orchestrator

This Dafny project models three parts of the repository and proves properties of them. Nothing in
it executes the original program.

**The workflow graph** (`orchestrator/scripts/graph.py`). Thirteen node functions rewrite a state of
18 fields; routers choose the next node; subagents return arbitrary records and users answer at four
gates.

- `Basics`, `Schema`, `Guard`: records, white space, numerals, and the Anti-Drop Guard. The guard's
  loops are methods proved against functions; what the functions promise is proved in lemmas.
- `Workflow`: the state, every node, every router, `Step` and `Execution` (any sequence of inputs,
  each with its own disk and hash function).
- `ControlMachine`, `Traces`, `Observing`: an independent reference machine over the control part of
  the state. `Replay` reads log records only; `Enabled` says which record may come next;
  `NextRecord` says which one an input calls for, from the little an `Observation` keeps of it.
- `Refinement`, `Runs`: every node run is one step of that machine, in every execution.
- `Checks`, `GateAnswers`, `Dispatches`: every check, every answer and every result spelled out, in the texts that
  the graph sees and writes.
- On top of that, whole-run theorems: `Approval` (DONE is earned), `Budgets` (guard retries and
  counters), `Termination`, `ResumeCount`, `NonInterference`, `DevLoop`, `Subtasks`, `Artifacts`, `Records`.
  `SampleRuns` has two concrete runs.

**The task queue and its daemons** (`server/task/queue.go`, `server/task/context.go`,
`server/daemon.go`).

- `TaskQueue`, `Scheduler`: the queue, the cancel registry and the scheduler as classes. Each
  statement is tied to a function on the table; `Tick` and `Execute`, the latter
  with its heartbeats, are proved for goroutines that run one after the other.
- `Columns`: what each statement writes, column by column.
- `Protocol`: the same statements interleaved with tick loops, execute goroutines, heartbeats, lost
  writes, crashes, restarts and the clock, for any number of daemons.
- `Leases`, `Unleased`, `Heartbeats`, `Capacity`, `Claims`, `Recovery`: mutual exclusion, a run that loses it,
  what it needs, the slot counts, the history of claims, and what becomes of a crashed daemon's rows, over every
  run of that protocol.

**Text passes over templates** (`subagent/doc_output/template_engine.py`,
`subagent/doc_output/feishu_publisher.py`).

- `Placeholders`: the strip pass, and exactly when one pass is enough.
- `Fences`, `Comments`, `Annotation`, `Classification`: the fence and comment patterns as matchers,
  the classifier, and the annotator with its idempotence.
- `Effects`: what annotating does to a text. `Charts`: the extractor, and its agreement with the
  annotator. `Sections`: the scan for the end of a template section.

## Where the code and its documentation differ

The model follows the code.

- `subagent/doc_output/template_engine.py:610-612`: the strip pass is described as a catch-all, but one
  pass can leave a placeholder behind: it deletes `{{d}}` from `{{abc}{{d}}}` and so joins the two
  closing braces around it. `Placeholders.StripIsNotComplete` is that text;
  `Placeholders.StripComplete` says exactly which texts are affected.
- `shrimp-graph/SKILL.md:418` counts `8 + 2N + 2R` resumes. For a run to DONE without rollbacks that is right
  exactly if the user gave no hint and the guard made no retry (`ResumeCount.DocumentedCountIff`); the run of
  `SampleRuns.DoneWithAHint` takes 14 instead of 12.
- `shrimp-graph/SKILL.md:695` expects `current_subtask_index` to be one less than the number of
  subtask results throughout DEV, and -1 when BLOCKED. The first holds exactly while no developer runs
  (`DevLoop.IndexCountsResultsIff`), the second exactly if it was not the guard that blocked in DEV
  (`DevLoop.BlockedIndexIff`). `SampleRuns.DoneWithAHint` and `SampleRuns.BlockedInDev` are runs that show it.
- `shrimp-graph/SKILL.md:528` wants `status=done` to imply `gate_result.passed=true`, and `passed=false` to imply
  blocked or needs_input. The code reports neither a missing `passed` nor a denied gate without a status, and
  otherwise what is documented (`Guard.GateCheckAsDocumentedIff`; `Guard.SilentGate` is such a result).
- `subagent/doc_output/template_engine.py:226-232` promises the index of a `\n## `; the scan splits with
  `splitlines`, so another line break can stand before the heading. The index is the promised one exactly if it
  points at a `\n` (`Sections.AsDocumentedIff`); in `a\nb\r## c` it points at the `\r`
  (`Sections.CarriageReturnHeading`).
- `DESIGN.md:97-100` has crash recovery work by the recovery at startup. A daemon that restarts before the heartbeats
  of its crashed predecessor are stale leaves the rows as they are, and nobody takes them back until yet another start
  (`Recovery.RestartTakesBackIff`, `Recovery.RestartedTooSoon`).

## Model

| member | source | states |
|---|---|---|
| Guard.RunAntiDropGuard | orchestrator/scripts/graph.py:323-470 | the findings on any result, in order: status, stage drift, gate contradictions, missing expected artifacts, handoff note |
| Guard.MissingArtifacts | orchestrator/scripts/graph.py:404-418 | exactly the expected keys the result does not name |
| Guard.CheckHandoff | orchestrator/scripts/graph.py:427-470 | there is no finding if and only if the note, white space at its ends apart, can be quoted on one line: not empty, without a line break, at most 280 characters; every finding is a minor G6, and there are at most two |
| Guard.VerifyAndPersistArtifacts | orchestrator/scripts/graph.py:556-641 | findings and persisted entries for every claimed key: unregistered, missing on disk, differing digest, or stored |
| Guard.SevereIff | orchestrator/scripts/graph.py:473-475 | a result is rejected if and only if it is no record, has no valid status, names another stage, or claims a registered file that is not on disk; nothing else is severe |
| Checks.AllReported | orchestrator/scripts/graph.py:323-641 | the whole guard on any result, check by check and from the fields of the result: G1, G3, G4, G5_DECL, G5_PROVE and G6 are each reported exactly when called for, severe exactly for G1, G3 and a missing file, under the text of the stage and the name of the subagent, and nothing else is reported |
| Checks.DeclaredInOrder | orchestrator/scripts/graph.py:346-464 | the declarative findings stand in the order G1, G3, G4, G5_DECL, G6, each as often as it is due: a denied gate under "done" is reported twice, a note that is both too long and on several lines twice, everything else once |
| Guard.GateCheckIff | orchestrator/scripts/graph.py:383-402 | a contradiction between status and gate is reported if and only if the gate is denied outright under a status that is there and is neither blocked nor needs_input |
| Guard.GateCheckAsDocumentedIff | orchestrator/scripts/graph.py:383-402 | the report agrees with the documented rule if and only if the result is neither done without a verdict on its gate, nor without a status while it denies its gate |
| Guard.SilentGate | orchestrator/scripts/graph.py:383-402 | a concrete result that the documented rule excludes and the guard does not report |
| Guard.KeyInjective | orchestrator/scripts/graph.py:477-482 | guard retry keys of different (stage, subagent, round) differ, whatever text a task id is |
| Observing.DistrustedIff | orchestrator/scripts/graph.py:556-641 | the rejection can be told from status, stage, claimed keys and the files present alone |
| Refinement.StepRefines | orchestrator/scripts/graph.py:784-2192 | one run of any node on any input is one step of the reference machine, labelled by the single record it logs, and that is the record the observation of the input calls for |
| Runs.ExecutionFollows | orchestrator/scripts/graph.py:2195-2288 | every execution is a run of the reference machine over its own log |
| Runs.ExecutionExists | orchestrator/scripts/graph.py:2195-2288 | every sequence of inputs has an execution, so the theorems over executions speak of every input |
| Runs.AuditReplay | orchestrator/scripts/graph.py:76-86 | folding the log alone recovers node, stage, retry count, rollback counts, guard retries, pending retry, consultation round, subtask index and the numbers of decisions, consultations and hints of any reachable state |
| Runs.OneRecordPerNodeRun | orchestrator/scripts/graph.py:76-86 | every node run appends exactly one log record and keeps the earlier ones |
| Runs.ExecutionInv | orchestrator/scripts/graph.py:2195-2288 | stage and node agree, the subtask index and the results fit the plan, pending retry and budgets are consistent, in every reachable state |
| GateAnswers.GateAnswered | orchestrator/scripts/graph.py:871-2115 | in every execution, for every gate and every answer text, the whole next state and node: stage, record, decision, counters, results, hint and warnings, text by text |
| GateAnswers.InvalidIff | orchestrator/scripts/graph.py:706-754 | an answer is put down as invalid if and only if it is none of the texts that gate offers |
| Dispatches.ResultTreated | orchestrator/scripts/graph.py:800-2023 | in every execution, for every dispatch and every result: a distrusted result is sent back once and then blocks, with the ids of exactly the severe checks in the record and the findings in the pending retry and the warnings; an accepted one leaves its decision, its findings, its record and, in a consultation, the two digests, and leads where its status says |
| Approval.ApprovedIff | orchestrator/scripts/graph.py:901-923 | a gate is in the fold of the answers exactly if it has an approval with no later rollback to its stage or before |
| Approval.ApprovalsMatchStage | orchestrator/scripts/graph.py:2118-2192 | while not blocked, exactly the gates before the current stage stand approved |
| Approval.PlanFrozen | orchestrator/scripts/graph.py:1276-1289 | while a Gate 1.5 approval stands the plan does not change: the same subtasks in the same order, with their titles and descriptions |
| Approval.DoneMeansAllGates | orchestrator/scripts/graph.py:2075-2107 | DONE implies a standing approval of each of the four gates |
| Approval.DoneMeansAllReviewed | orchestrator/scripts/graph.py:1712-1730 | DONE implies that every subtask of the plan approved at Gate 1.5 has a codex review logged after that approval and after any later rollback into DEV |
| Budgets.RollbackRefreshesBudget | orchestrator/scripts/graph.py:477-544 | after a rollback no subagent, whatever its name, has spent its retry |
| Budgets.OneRetryPerRound | orchestrator/scripts/graph.py:509-544 | two retries of the same subagent in the same stage have a rollback between them |
| Budgets.KeysStay | orchestrator/scripts/graph.py:525-544 | a guard retry key, once there, is there ever after |
| Budgets.PendingNamesNextDispatch | orchestrator/scripts/graph.py:525-544 | a pending retry names the stage and subagent of the node that runs next, its attempt is that key's count and equals the limit; so none is pending at a gate or at the end |
| Budgets.PendingIsConsumed | orchestrator/scripts/graph.py:693-703 | the run of that node uses the pending retry up, whatever comes back |
| Budgets.CountingBounds | orchestrator/scripts/graph.py:1032-1048 | the retry count is the sum of the rollback counts, the round is within its maximum, and consultations are at most MAX * (1 + hints) |
| Termination.LeftDecreases | orchestrator/scripts/graph.py:485-544 | the explicit measure decreases with every node run between two rests, and each dispatch spends one of the dispatches left |
| Termination.ComesToRest | orchestrator/scripts/graph.py:2195-2288 | from every reachable state, for every sequence of results, a gate or the end comes within the measure |
| Termination.PhaseBounds | orchestrator/scripts/graph.py:1032-1062 | at most 2 dispatches in PM, 2 * MAX + 3 in PLANNING, 4 per subtask in DEV and 4 in REV before the next decision |
| ResumeCount.ResumesAreAccounted | orchestrator/scripts/graph.py:847-868 | at any point of any run, blocked or not, resumes are decisions recorded plus guard retries, plus one if the last record is a block by the guard |
| ResumeCount.ResumesOfRun | orchestrator/scripts/graph.py:847-868 | the same for the decisions, retries and log in the state of any execution, also after its end |
| ResumeCount.ExactResumeCount | orchestrator/scripts/graph.py:2012-2023 | a rollback-free run to DONE records exactly 8 + 2N + 2R + 2C decisions and takes that many resumes plus the guard retries |
| ResumeCount.DocumentedCountIff | orchestrator/scripts/graph.py:2012-2023 | a rollback-free run to DONE takes the documented 8 + 2N + 2R resumes if and only if there was no hint and no guard retry |
| SampleRuns.DoneWithAHint | orchestrator/scripts/graph.py:2195-2288 | DONE is reachable: a run of 17 events with one subtask, one consultation and one hint, in 14 resumes, whose developer is dispatched at index 0 while there is no result |
| SampleRuns.BlockedInDev | orchestrator/scripts/graph.py:485-544 | a run that the guard blocks in DEV with the index left at 0 |
| NonInterference.ControlIsObserved | orchestrator/scripts/graph.py:346-470 | the next control state is a function of the present one and of the observation of the input |
| NonInterference.RunsNeverPart | orchestrator/scripts/graph.py:2118-2192 | two executions whose inputs agree on status, stage, claimed keys, files present, presence of a question, subtask ids, answers and whether the hint is usable agree on the whole control state at every step, whatever else the subagents claim |
| NonInterference.PathsStay | orchestrator/scripts/graph.py:784-797 | the artifact paths are written by the first node only |
| DevLoop.ParseSubtaskPlan | orchestrator/scripts/graph.py:926-950 | the loop with its set of seen ids computes the plan of the specification |
| DevLoop.PlanIsFirstOccurrences | orchestrator/scripts/graph.py:926-950 | an id is planned exactly if a usable item carries it, with title and description of the first such item |
| DevLoop.PlanIsInOrder | orchestrator/scripts/graph.py:926-950 | the planned subtasks stand in the order in which their ids first occur |
| DevLoop.CollectOpenIssues | orchestrator/scripts/graph.py:1464-1479 | the loop over the results computes the issues of the specification |
| DevLoop.IssuesAreKept | orchestrator/scripts/graph.py:1464-1479 | each reason of each failing review is one entry at its own place, a failing review without reasons one filler, and there is nothing else |
| DevLoop.CurrentSubtaskExists | orchestrator/scripts/graph.py:1518-1536 | at both DEV dispatches the index is in range, and the results are exactly those of the subtasks before it (and its own, at the review) |
| DevLoop.IndexCountsResultsIff | orchestrator/scripts/graph.py:1416-1436 | at any node of DEV the index is one less than the number of results if and only if no developer is being dispatched |
| DevLoop.BlockedIndexIff | orchestrator/scripts/graph.py:485-544 | in any blocked state the index is -1 if and only if the last record is not a block by the guard in DEV |
| DevLoop.ResultsAreThePlan | orchestrator/scripts/graph.py:1425-1515 | from Gate 2 on the results are those of the plan's distinct ids in order, with the verdicts of the reviews on record |
| DevLoop.GateTwoTellsTheReviews | orchestrator/scripts/graph.py:1438-1515 | Gate 2 passes if and only if every review since DEV was entered passed; its reasons name exactly the failing ones, in order; the summary has one line per subtask with the developer's status and the verdict on record, and the open issues of the results |
| Artifacts.EntryStep | orchestrator/scripts/graph.py:1010-1023 | read-only subagents, rejected results and gates leave every artifact entry alone; an accepted writer overwrites exactly those it proves |
| Artifacts.ArtifactTruth | orchestrator/scripts/graph.py:586-641 | an entry exists exactly if some accepted writer proved it, and is the registered path, the digest of the file as read then, and that dispatch's stage |
| Subtasks.SubtaskTruth | orchestrator/scripts/graph.py:1606-1730 | in every reachable state the record of a subtask, if there is one, is, word for word, what its last accepted developer said and, if a review came after that, what the last accepted reviewer said; a missing verdict is a failing one |
| Subtasks.RecordExistsIff | orchestrator/scripts/graph.py:1606-1730 | a subtask has a record exactly if a developer was accepted for it since the table was last emptied by a new plan or a rollback to DEV |
| Subtasks.ReviewedFromGateTwo | orchestrator/scripts/graph.py:1712-1730 | from Gate 2 on every planned subtask has a record, and its reasons and verdict are those of the last accepted reviewer, who came after the last accepted developer |
| Records.RecordsOnlyGrow | orchestrator/scripts/graph.py:847-868 | decisions, warnings, log, consultations and hints of a run only ever grow |
| Records.ClaimTruth | orchestrator/scripts/graph.py:264-320 | the summary and verdict kept for PM, PLANNING, rev_agent and codex_final exist exactly if a result for them was accepted, and are what the last one claimed |
| TaskQueue.Queue.Enqueue | server/task/queue.go:43-52 | a new pending row under a fresh id, priority out of range becoming medium |
| TaskQueue.Queue.Claim | server/task/queue.go:59-83 | takes a row that no other unlocked pending row of the agents comes before; no task if and only if there is none |
| TaskQueue.Queue.MarkRunning | server/task/queue.go:86-91 | running, started and heartbeat now, by id alone: neither status nor owner is looked at; a missing row changes nothing |
| TaskQueue.Queue.Heartbeat | server/task/queue.go:95-107 | refreshes the row only while it is this worker's; says stop if it is not, or if a cancel was requested |
| TaskQueue.Queue.Complete | server/task/queue.go:110-115 | completed with its result, by id alone, whatever the row was |
| TaskQueue.Queue.Fail | server/task/queue.go:119-124 | failed with the error and the partial result, by id alone |
| TaskQueue.Queue.Cancel | server/task/queue.go:127-132 | canceled with the partial result, by id alone |
| TaskQueue.Queue.RequestCancel | server/task/queue.go:136-147 | flags the row exactly if it exists and is not terminal |
| TaskQueue.Queue.RecoverOrphanedTasks | server/task/queue.go:151-166 | every owned row with a stale or missing heartbeat is pending again and ownerless, all others are untouched, and the number of rows taken back is returned |
| TaskQueue.RecoveryIsExact | server/task/queue.go:151-166 | recovery changes exactly the claimed and running rows with a stale or missing heartbeat: those are pending without worker, claim, start and heartbeat, and keep every other column, the cancel request included; a second recovery at the same time changes nothing |
| Columns.EventWrites | server/task/queue.go:43-166 | every event on every row, column by column: what each statement writes and that it writes nothing else |
| Columns.RowsContinue | server/task/queue.go:151-166 | over any run agent, prompt, priority and creation time of a row never change, a cancel request is never lost, and attempts never shrink |
| Columns.FlagIsKept | server/task/queue.go:136-147 | a cancel request that finds its row not over yet is in the table ever after |
| Scheduler.Manager.Start | server/task/context.go:21-34 | a fresh context, registered for the task in place of any other; the number of registered tasks grows by one unless the task had one |
| Scheduler.Manager.Finish | server/task/context.go:27-32 | the task is forgotten and its context released; the number of registered tasks shrinks by one if it was registered |
| Scheduler.Manager.Cancel | server/task/context.go:38-46 | found if and only if registered; cancels that context and no other |
| Scheduler.Daemon.AddInflight | server/daemon.go:211-215 | one more for this agent, no other count changes |
| Scheduler.Daemon.RemoveInflight | server/daemon.go:216-222 | one less for this agent unless it is zero |
| Scheduler.Daemon.TickAgent | server/daemon.go:75-95 | claims distinct pending rows of the agent, in the order of priority and age and before all that stay, until its slots are full or none is left; starts one goroutine for each |
| Scheduler.Daemon.Tick | server/daemon.go:73-96 | afterwards every agent is full or has no pending row, none is over its limit, and each count grew by the goroutines started |
| Scheduler.Daemon.Heartbeat | server/daemon.go:156-177 | beats refresh the row one after the other; the first that finds the row flagged or in other hands cancels the context and is the last |
| Scheduler.RefreshedIs | server/task/queue.go:95-107 | over any number of beats only the heartbeat of the worker's own row changes, and the run is stopped if and only if that row is flagged or in other hands |
| Scheduler.Daemon.WriteResult | server/daemon.go:136-151 | success wins over cancellation, cancellation over failure |
| Scheduler.Daemon.Execute | server/daemon.go:99-152 | the table after an execution with any heartbeats in between, each statement reaching it or lost, and the registration gone |
| Scheduler.ExecutionEnds | server/daemon.go:99-152 | how a claimed task ends whose final statement gets through: completed if the run succeeded; otherwise canceled if the context was, through its parent, this daemon or a heartbeat that found the flag; otherwise failed; owner, attempts and all other rows stay |
| Scheduler.Daemon.CancelTask | server/daemon.go:181-188 | the local context is canceled if there is one, the flag is set if the row allows it, and who gets an error |
| Leases.LeaseSafety | server/task/queue.go:86-132 | for any daemons and interleaving: if recovery always finds the lease held, no task has two live executions and a terminal row never changes again |
| Leases.SingleDaemonIsSafe | server/daemon.go:46-52 | one daemon at a time, crashing and restarting at will, holds the lease without any assumption on time |
| Leases.RecoveryKeepsOwnersIff | server/task/queue.go:151-166 | in a safe state recovery is safe if and only if the lease holds |
| Leases.LostLease | server/task/queue.go:59-83 | in any state: if a live execution's row is stale, recovery and one claim while every other row is locked give the task two live executions |
| Unleased.WithoutTheLease | server/task/queue.go:86-132 | a run of 16 events from the empty table, with no row ever locked: a daemon silent for longer than the timeout loses its task to a second one, both execute it, and the completed row goes back to running |
| Heartbeats.HeartbeatsHoldTheLease | server/daemon.go:156-177 | the lease holds if at every recovery the timeout is at least an interval and two latencies and every live execution is in time: marked within a latency of its claim, beating an interval and a latency apart while it runs (a canceled run, which beats no more, ending within that), written within a latency of its end |
| Capacity.CapacityHolds | server/daemon.go:206-222 | under any interleaving each count is the number of counted executions and at most the limit, and the guard of the decrement never holds it back |
| Recovery.CrashAbandons | server/daemon.go:46-52 | a crash in a safe state leaves each row its daemon was working on owned, unchanged, and without a live execution |
| Recovery.AbandonedUntilRecovered | server/task/queue.go:151-166 | in any run, such a row stays so exactly until a recovery finds it stale |
| Recovery.HeartbeatStays | server/task/queue.go:95-107 | as long as it does, its heartbeat is the one it had |
| Recovery.RestartTakesBackIff | server/daemon.go:46-52 | the recovery of a restart makes such a row pending if and only if its last heartbeat before the crash is older than the timeout then |
| Recovery.RestartedTooSoon | server/daemon.go:46-52 | a run with one daemon at a time, from the empty table: the restart comes before the timeout, and long after it the row is still running, with no execution, no recovery to come and nothing to claim |
| Claims.AttemptsCountClaims | server/task/queue.go:59-83 | attempts are the number of claims, with nothing assumed |
| Claims.ClaimsAreSeparated | server/task/queue.go:151-166 | between two claims of a row there is a recovery of it, with nothing assumed |
| Claims.ClaimsAreInOrder | server/task/queue.go:63-77 | of two claims for an agent the earlier takes the row that comes first by priority and age, whatever any daemon does in between, with no lease assumed, if nothing was enqueued for the agent or taken back and the later row was not locked at the earlier claim |
| Claims.ClaimedWerePending | server/task/queue.go:59-83 | without a refill every row claimed for an agent was pending at the start |
| Claims.DrainIsSorted | server/task/queue.go:63-77 | without a refill the rows claimed for an agent are all different, were pending at the start, and come sorted by priority and age |
| Claims.OnlyClaimsTake | server/task/queue.go:59-83 | in a safe state no event but a claim takes a pending row away |
| Claims.DrainIsComplete | server/task/queue.go:59-83 | under the lease, what was pending at the start is, at any later point, either still pending or claimed, never both |
| Claims.DrainedIff | server/task/queue.go:59-83 | under the lease and without a refill, over any run: there is no task left for the agent if and only if the claims took every row pending at the start |
| Placeholders.StripRemoves | subagent/doc_output/template_engine.py:610-612 | for every text: one pass takes out the placeholders it meets from left to right, each `{{`, something without `}`, `}}`, and leaves every other character in place |
| Placeholders.StripComplete | subagent/doc_output/template_engine.py:610-612 | for every text: a placeholder is left after one pass if and only if the text contains a torn one, that is `{{X}` followed by one or more whole placeholders and then `}` |
| Placeholders.TornIff | subagent/doc_output/template_engine.py:610-612 | a text is torn at its start if and only if it is written as `{{`, something without `}`, `}`, one or more whole placeholders, `}` and any rest |
| Placeholders.StripIsNotComplete | subagent/doc_output/template_engine.py:610-612 | a concrete text with a placeholder left |
| Fences.MatchIsPrefix | subagent/doc_output/template_engine.py:22-25 | a match is cut into its groups without loss, the groups have the form the pattern asks for, and no closing fence starts within the body |
| Fences.ValidIsMatched | subagent/doc_output/template_engine.py:22-25 | a text of that form is matched with exactly those groups, whatever follows |
| Fences.FenceIs | subagent/doc_output/template_engine.py:22-25 | that form, group by group and without the matcher: nothing or a line break, spaces and tabs, the opening mark, a body in which no line break is followed by blanks and three backticks, and such a closing |
| Comments.TextIsParsed | subagent/doc_output/feishu_publisher.py:24-27 | the comment the annotator writes is read back with its code |
| Comments.WrittenIsParsed | subagent/doc_output/feishu_publisher.py:24-27 | every chart comment, written out with any white space, is parsed with its code, whatever follows |
| Comments.ParsedParts | subagent/doc_output/feishu_publisher.py:24-27 | what is parsed is such a comment, cut without loss |
| Comments.HasAnnotationIff | subagent/doc_output/template_engine.py:28-31 | the look back finds something if and only if the text ends in a chart comment and white space, together at most 200 characters |
| Comments.AnnotationIsLocal | subagent/doc_output/template_engine.py:79-85 | the look back of 200 characters never depends on what lies behind a backtick |
| Classification.KeywordDecides | subagent/doc_output/template_engine.py:40-63 | for each of the eight keywords: a body that begins with it, whatever white space stands before it and whatever follows, has the code of its kind; a flow chart is D-DAG if and only if it has a Phase subgraph, else D-ARCH if and only if it has any subgraph, else D-DECISION |
| Classification.UnclassifiedIff | subagent/doc_output/template_engine.py:40-63 | a body gets no code if and only if it begins, white space aside, with none of the keywords |
| Annotation.AnnotateSettles | subagent/doc_output/template_engine.py:66-91 | in the result of a pass every classified fence has its annotation |
| Annotation.AnnotateIsIdempotent | subagent/doc_output/template_engine.py:66-91 | a second pass changes nothing, for every text and every class of word characters |
| Effects.AnnotateOnlyEdits | subagent/doc_output/template_engine.py:86-91 | the result is the text with some whole mermaid blocks annotated and nothing else changed: each is closed at its own first closing fence, had no annotation, gets one line naming the class of its body, and its closing fence the indentation of its opening |
| Effects.CommentedBlockStays | subagent/doc_output/template_engine.py:66-91 | a closed block behind a chart comment and any white space within that window is left exactly as it is, whatever class the comment names |
| Effects.BareBlockIsAnnotated | subagent/doc_output/template_engine.py:66-91 | a closed block of a known class without one gets exactly its comment line, and its closing fence the indentation of the opening one |
| Effects.AnnotateKeepsPlaceholders | subagent/doc_output/template_engine.py:126-137 | annotating neither makes nor removes a placeholder |
| Effects.RenderedPlaceholders | subagent/doc_output/template_engine.py:126-137 | a text stripped and then annotated has a placeholder if and only if it had a torn one |
| Charts.ExtractUpgradableCharts | subagent/doc_output/feishu_publisher.py:54-70 | the loop returns the charts with an upgradable code among all annotated charts, in order |
| Charts.UpgradableSplits | subagent/doc_output/feishu_publisher.py:54-70 | the upgradable charts of a list are picked one by one, in order |
| Charts.UpgradableOne | subagent/doc_output/feishu_publisher.py:30 | a chart is kept if and only if its code is D-ARCH, D-SEQ or D-DAG |
| Charts.ChartIsMatched | subagent/doc_output/feishu_publisher.py:24-27 | every annotated block at column 0, written out, is matched with its code and its body up to the first line break before three backticks |
| Charts.MatchIsChart | subagent/doc_output/feishu_publisher.py:24-27 | what is matched is such a block, cut without loss |
| Charts.AnnotatorAndExtractorAgree | subagent/doc_output/feishu_publisher.py:73-83 | for a text without chart comments, extracting from the annotated text gives exactly the classified blocks at column 0, in order, with their codes and unchanged bodies |
| Sections.FindNextSectionOutsideFence | subagent/doc_output/template_engine.py:226-251 | the line break before the first `## ` line outside any fence behind the search position, or -1 if and only if there is none |
| Sections.PointsAtNewlineIff | subagent/doc_output/template_engine.py:239-250 | the character at the index is a `\n` if and only if the line before the heading ends in one |
| Sections.AsDocumentedIff | subagent/doc_output/template_engine.py:226-251 | the index is that of the first documented `\n## ` outside a fence if and only if it points at a `\n` |
| Sections.CarriageReturnHeading | subagent/doc_output/template_engine.py:239-250 | a concrete text with a heading behind a lone carriage return, for which the index is not the documented one |
| Sections.LinesJoin | subagent/doc_output/template_engine.py:239-241 | splitting into lines loses nothing |
| Sections.SplitIff | subagent/doc_output/template_engine.py:239-241 | the split is the only one of the text into lines, each with its line break at its end and nowhere else, and no `\r\n` taken apart |
| Sections.MarksAre | subagent/doc_output/template_engine.py:241-248 | a heading is a line that begins with `## `, a fence line one with three backticks behind any white space |

## Left out

- The LangGraph engine, checkpoints, the command line and `state.py`: they are not part of this model. Defaults of state fields are read off their first use (retry count 0, round 0, subtask index -1).
- Subagent results are typed records, or not a dict at all; a field of the wrong type inside a record is not modelled.
- Dispatch and gate payloads, permission policies, prompt texts and the wording of warnings: constant data. A warning keeps its stage, subagent, check and severity.
- Times, ids of messages and decisions that come from the clock, and the question text of a decision.
- Hashes are an arbitrary function given with each input; reading a file is a lookup in a disk map given with each input. The checks of a hint file are reduced to one outcome.
- Errors of the database other than a lost statement, the transaction isolation below one statement, `Get`, `List`, `CountInflight` and the manager's `Inflight`: reads that would only add easy members.
- The runner is reduced to how a run ends. Contexts have no tree: a cancellation of the parent while a task runs is the `canceled` parameter of `Execute`. A child process that outlives its crashed daemon is not modelled.
- Scheduler.Daemon.Tick: proved for one thread; interleaving with goroutines that finish is the subject of `Protocol` and `Capacity`.
- Heartbeats.HeartbeatsHoldTheLease: assumes that each live execution did refresh its row in time; how the timers of the runtime bring this about is not modelled.
- The first four substitution steps of a template (metadata, merged content, source labels, diagram stubs): plain replacements that the strip pass and the annotator take as their input text.
- Word characters of the regular expressions are an arbitrary predicate; nothing depends on which they are.
- The template skeletons, `chart_publisher.py`, `content_merger.py`, `parallel_fetch.py`, publishing, the interleaving check of the publisher, HTTP, configuration and the web interface.
