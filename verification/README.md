# Verification of the showtime platform's job, scan and aggregation logic

A Dafny 4.11 model of the parts of the platform whose correctness is decided by
code rather than by an external service, with proofs of what that code promises.
`dafny verify dfyconfig.toml` checks the whole project.

## What is modelled

**Batch jobs** (`BatchProtocol`, `BatchSafety`, `BatchFinalize`, `BatchProgress`,
`BatchExamples`, `BatchJob`). An agentic title-matching job has many row tasks running
at once. Each stores its result once (HSETNX), bumps the counters, then either wins the
finalize claim or claims the next window of rows. `BatchProtocol` is the transition
system: one step per database statement or Redis command, any interleaving, duplicate
and redelivered rows, Celery retries, beat top-ups and sweeps, an exception before any
statement of a worker, handled as the innermost handler does, and a finalize task
that may crash between any two of its steps. `BatchSafety` proves the invariant of
every run, `BatchFinalize` what the output file holds, `BatchProgress` when the job
finishes without beat and what beat can repair, `BatchExamples` has a run for each
way to fail, and `BatchJob` is the same code as fields and methods of one worker,
including the compare-and-swap loop of the dispatch cursor and the mutual recursion
of refill and failed rows. The international job runs the same statements on a second
table; one generic model covers both.

**Data-quality scan** (`ScanModel`, `ScanCompiler`, `ScanEngine`, `ScanRun`,
`ScanExamples`, `SheetNames`). Rules are gated, compiled, merged up to ten at a time
into one `SUM(CASE WHEN ...)` query, executed with fallbacks, and reported. Conditions
are evaluated under three-valued logic; an authored expression is an opaque predicate
that may mention bind names. Compiled statements are kept and looked up by rule id,
and nothing assumes that ids are distinct unless a statement says so.

**Usage aggregation** (`UsageModel`, `UsageStore`, `UsageQueries`, `UsageTorn`,
`UsageViews`). The call log, the hourly rollup with its watermark, the prune, and the
four dashboard views, compared with a plain scan of everything ever logged.

**Key rotation and the job semaphore** (`KeyRotation`, `JobSemaphore`). The cooldown
table shared by all workers (SerpApi and scrape.do use the same state machine; the
two accumulated counters are scrape.do's), one search over the pool, and the cap on
concurrent calls of one job.

**Screen-format detection** (`DetectionIndex`, `DetectionDomestic`, `DetectionIntl`).
Dictionaries built from mappings in tier order, the per-segment match, and the choice
among hits. Normalisation and lower-casing are uninterpreted functions.

**Calendar text and block dates** (`CalendarChunks`, `BlockDates`). Greedy grouping of
calendar sections into calls, and anchoring a row of day blocks to real dates.

`Common`, `Decimal` and `Sorting` hold what several of these need.

## Where the code and its documentation differ

The code is modelled; the promise is stated with its exact condition.

- Finalize is documented as idempotent. Executions one after another are
  (`BatchFinalize.SerialOutput`), but two that overlap can replace a good file by one
  full of the filler (`BatchExamples.OverlapSpoilsOutput`). The file that stays is
  right if and only if its writer read the results before their deletion
  (`BatchFinalize.ReadRightExactly`, `BatchFinalize.LastWriterDecides`); after it, only
  late duplicates that store the first answers again can help
  (`BatchFinalize.RightAfterDeletion`).
- "A single row failure never aborts the batch", but an exception outside the matching
  itself can: between the HSETNX and the counter UPDATE, before the claim of a complete
  job, between the committed claim and the enqueue, among the rows of a window, or
  before a refill. A job at rest has enqueued finalize exactly when none of these is
  outstanding (`BatchProgress.RestMeansEnqueued`; `BatchExamples.LostBump`,
  `MissedClaim`, `CutSend`, `DroppedRow`, `CutRefill`). Beat's sweep repairs a missed
  claim and its top-up a missing refill unless the job was marked failed, and nothing
  repairs a cut-off enqueue or a lost count (`BatchProgress.SweepRepairsClaim`,
  `TopUpRepairs`, `FailedStaysCut`, `CutSendStays`, `LostBumpStays`).
- Self-refill replaces beat exactly when the first window and the refill chunk are
  positive, or the first window takes every row (`BatchProgress.FinishesExactly`,
  `BatchExamples.NoRefill`).
- Batching "can never disagree" with individual execution. It can in two ways: an
  authored expression has a bind name that only the merged parameters supply, or
  another rule's statement is kept under the rule's id (`ScanEngine.BatchDiffersExactly`,
  `ScanEngine.OwnNamesDecide`; `ScanExamples.CaptureExample`, `SharedIdExample`).
- A report should have one outcome per rule. With distinct ids it does unless an
  interrupt falls between recording a work item and marking its rules
  (`ScanRun.DistinctOutcomes`, `ScanExamples.TwiceExample`). Nothing checks that ids
  are distinct: a shared one can report a rule twice, lose it at an interrupt, do both
  so that only the number of outcomes is right, or end the run without a report
  (`ScanRun.OneOutcomeExactly`, `ScanRun.SharedIdsExactly`; `ScanExamples.SharedExample`,
  `LostExample`, `MixedUpExample`, `AbortExample`).
- The rollup queries are documented never to count a row twice and to miss none. They
  read the watermark, the buckets and the tail in three statements; a row folded
  between the first two is counted twice, and one folded and pruned between the last
  two is missed (`UsageTorn.TornQuery`, `UsageTorn.TornExactly`;
  `UsageTorn.DoubleCountExample`, `MissedRowExample`). An answer is right if the
  watermark has not moved by the last read (`UsageTorn.WatermarkTells`).
- The watermark's docstring says the prune is bounded by `last_rolled_hour`; the code
  bounds it by `last_rolled_id`, and so does the model.
- The semaphore caps live holder keys, not calls: a call that outlives its key leaves
  room for another (`JobSemaphore.NeverOverCap`, `JobSemaphore.SlowCallOverlaps`).
- Domestic exact-form dictionaries keep the highest tier number on a collision, the
  international ones the lowest (`DetectionDomestic.CollisionGoesToLast`,
  `DetectionIntl.NoBetterTier`).

## Assumptions

- A broker message is not lost and a worker process does not die: what goes wrong in a
  worker is an exception, which may come before any of its statements and which the
  code's own handlers catch. `dispatch_batch` runs once per job.
- One scan sees one unchanging table, and `LIMIT` returns rows in scan order. Column
  comparison is exact text comparison, without a collation.
- Log ids are handed out and become visible in increasing order; cost is a real number.
- Job ids contain no colon (`JobSemaphore.NestedIdsCollide` shows why) and no character
  that Redis reads as a pattern; holder ids are fresh.
- Lower-casing the empty text gives the empty text, and a bar is not white space.
- Positions of section headers, segment texts after normalisation, and the reading of
  a block's date text are inputs.

## Model

| member | source | states |
|---|---|---|
| BatchSafety.StepInv | backend/app/tasks/agentic_match_task.py:279-342 | Every single step of any task keeps the protocol invariant: counters balanced against stored rows, windows tiled, at most one send, finalizers consistent with the job row. |
| BatchSafety.RunInv | backend/app/tasks/agentic_match_task.py:121-342 | The invariant holds after every run, whatever is interleaved, duplicated or retried. |
| BatchSafety.CountersAgree | backend/app/tasks/agentic_match_task.py:88-104 | In every reachable state processed == matched + no_match + failed; until cleanup, with bumps under way and cut off included, matched counts the rows answered with a title in the database, no_match those answered with one that is not, failed the failed rows, and 0 <= processed <= stored <= dispatched <= total. |
| BatchSafety.FirstResultStays | backend/app/tasks/agentic_match_task.py:279-291 | No run ever replaces the first result stored for a row. |
| BatchSafety.WinnerFindsEveryRow | backend/app/tasks/agentic_match_task.py:309-342 | The row task that wins the finalize claim finds a stored result for each of 0..total-1, all counted, equal to the first ever stored; the filler is never used on this path; nothing was enqueued before. |
| BatchSafety.FinalizeEnqueuedOnce | backend/app/title_matching/dispatch_window.py:47-90 | Sends made, sends about to be made and sends cut off by an exception are one together if the job is claimed and none otherwise: finalize is enqueued at most once by rows and sweep together. |
| BatchSafety.WindowsTile | backend/app/title_matching/dispatch_window.py:187-237 | A row is below the dispatch cursor exactly when some claimed window holds it, and claimed windows never overlap. |
| BatchSafety.FifthMissGivesUp | backend/app/title_matching/dispatch_window.py:187-237 | Every attempt of one cursor claim asks for the limit of the first, and the fifth miss, and no earlier one, gives the claim up. |
| BatchSafety.GivenUpIsRecorded | backend/app/tasks/agentic_match_task.py:576-596 | The next row of a window may turn out unrecoverable; it is then stored as failed with that message and counted once, and the worker keeps the rest of its window. |
| BatchSafety.RedeliveredRow | backend/app/tasks/agentic_match_task.py:113-119 | A dispatched row may be delivered again with any number of retries used; its result is stored only if the row has none, and no counter moves before that. |
| BatchSafety.CompleteCount | backend/app/tasks/agentic_match_task.py:329-340 | When processed reaches total before cleanup, every row is stored and no bump is outstanding or lost. |
| BatchFinalize.FreshOutput | backend/app/tasks/agentic_match_task.py:349-431 | With crashes, retries, overlaps and duplicate rows: as long as no execution reads the hash after its deletion, the file is absent or the expected one, it is the expected one once a commit was made, and upload and results are deleted only then. |
| BatchFinalize.SerialOutput | backend/app/tasks/agentic_match_task.py:349-431 | Any number of executions one after the other, each possibly crashing between any two steps, leave the output of one uninterrupted execution. |
| BatchFinalize.RetryCompletes | backend/app/tasks/agentic_match_task.py:370-431 | From any reachable state with finalize enqueued and the job not completed, a new execution can complete it with the first result of every row. |
| BatchFinalize.CompletedIsFrozen | backend/app/tasks/agentic_match_task.py:349-431 | In every run, overlaps and late duplicate rows included, a committed job stays committed, its status completed unless the dispatcher itself fails later; with rows, finalize is not enqueued again; and nothing but a finalize execution's own write touches the file. |
| BatchFinalize.CommittedOutput | backend/app/tasks/agentic_match_task.py:362-431 | After a commit no serial run, late duplicate rows included, changes the file: it stays the expected one. |
| BatchFinalize.CompletedDeliveryIsNoOp | backend/app/tasks/agentic_match_task.py:369-385 | With no execution under way and while the status stays completed, no delivery of finalize gets past its first check, and no file, upload or hash is written or deleted. |
| BatchFinalize.OneNextStatement | backend/app/tasks/agentic_match_task.py:370-431 | A finalize execution that has not ended has exactly one next statement and may crash instead of any; one that has ended has none. |
| BatchFinalize.CompletedAsksForNothing | backend/app/title_matching/dispatch_window.py:212-218 | On a completed job, one without rows included, no step starts a cursor claim and only a row task's own claim can set the finalize flag. |
| BatchFinalize.ReadRightExactly | backend/app/tasks/agentic_match_task.py:370-402 | An execution that holds the upload assembles the expected file if and only if the results hash has not been deleted, when some row was answered and no duplicate was stored since. |
| BatchFinalize.RightAfterDeletion | backend/app/tasks/agentic_match_task.py:387-402 | After the deletion it assembles the expected file exactly when late duplicates have put back the first answer of every row that has one other than the filler. |
| BatchFinalize.LastWriterDecides | backend/app/tasks/agentic_match_task.py:370-402 | When some row was answered and no late duplicate was stored before the read: the file left by the last writer, however the run goes on, is the expected one if and only if that execution read the hash before its deletion. |
| BatchExamples.OverlapSpoilsOutput | backend/app/tasks/agentic_match_task.py:362-431 | A reachable state of a one-row job that is completed but whose file holds the filler, by two overlapping executions. |
| BatchProgress.WorkIsBounded | backend/app/tasks/agentic_match_task.py:121-342 | However workers interleave, they stop after at most a measured number of steps. |
| BatchProgress.NotStuck | backend/app/tasks/agentic_match_task.py:309-342 | A job has no fault-free step left exactly when its queue is empty and every worker is idle. |
| BatchProgress.RestMeansEnqueued | backend/app/tasks/agentic_match_task.py:121-342 | At rest, with exceptions anywhere: finalize was enqueued once if and only if every row was dispatched, every row dropped by an exception was stored by another delivery, and no bump, claim or enqueue was cut off for good; else never. |
| BatchProgress.SweepRepairsClaim | backend/app/tasks/agentic_scheduler_task.py:237-264 | A missed claim of a complete job enables the sweep exactly while the job is not marked failed, and the sweep then enqueues finalize once. |
| BatchProgress.TopUpRepairs | backend/app/tasks/agentic_scheduler_task.py:386-440 | After any run with any exceptions that left rows undispatched on a job not marked failed, a positive top-up has every row dispatched at rest, barring a further exception, and finalize enqueued if and only if no bump or enqueue had been cut off and every dropped row was stored. |
| BatchProgress.FailedStaysCut | backend/app/title_matching/dispatch_window.py:187-237 | With undispatched rows on a job marked failed and no claim under way, no run, top-ups included, moves the cursor or enqueues finalize. |
| BatchProgress.CutSendStays | backend/app/tasks/agentic_match_task.py:329-342 | After an enqueue was cut off behind its claim, no run ever enqueues finalize, by a sweep or otherwise, or completes the job. |
| BatchProgress.LostBumpStays | backend/app/tasks/agentic_match_task.py:279-342 | After a bump was cut off while the hash stood, no run ever claims the job, enqueues finalize or completes it. |
| BatchProgress.FaultFreeCompletion | backend/app/tasks/agentic_match_task.py:309-342 | From any state reached without an exception, without beat: the remaining steps are bounded and when none is left finalize is claimed and sent. |
| BatchProgress.FinishesExactly | backend/app/tasks/agentic_match_task.py:541-603 | A job left to its own workers enqueues finalize if and only if window > 0 and (chunk > 0 or window >= total). |
| BatchExamples.LostBump | backend/app/tasks/agentic_match_task.py:279-306 | A run at rest, finalize not enqueued, that lost only a bump between HSETNX and UPDATE. |
| BatchExamples.MissedClaim | backend/app/tasks/agentic_match_task.py:309-342 | One that missed only the claim of a complete job. |
| BatchExamples.CutSend | backend/app/tasks/agentic_match_task.py:329-342 | One that lost only the enqueue after a committed claim. |
| BatchExamples.DroppedRow | backend/app/tasks/agentic_match_task.py:541-603 | One that lost only a row of a claimed window, and left the job marked failed. |
| BatchExamples.CutRefill | backend/app/tasks/agentic_match_task.py:309-342 | One in which an exception before a refill left a row undispatched. |
| BatchExamples.NoRefill | backend/app/tasks/agentic_match_task.py:541-603 | A fault-free run at rest, half done, with a refill chunk of zero. |
| BatchJob.CountedOnce | backend/app/tasks/agentic_match_task.py:88-104 | Counting a newly stored row keeps matched, no_match and failed equal to the numbers of stored rows answered in the database, answered outside it, and failed. |
| BatchJob.FullCount | backend/app/title_matching/dispatch_window.py:47-90 | With counters in step, processed is the number of stored rows, and at total every row is stored and dispatched. |
| BatchJob.JobStore.constructor | backend/app/tasks/agentic_match_task.py:652-718 | A fresh job row and empty stores satisfy the class invariant. |
| BatchJob.JobStore.StoreRowResult | backend/app/tasks/agentic_match_task.py:279-291 | Only the first writer of a row wins, and only then does the hash change, by exactly that row. |
| BatchJob.JobStore.BumpCounters | backend/app/tasks/agentic_match_task.py:88-104 | One UPDATE adds one to processed and to the one outcome column. |
| BatchJob.JobStore.ClaimFinalize | backend/app/title_matching/dispatch_window.py:47-90 | The claim succeeds exactly when unclaimed and fully counted, and sets only the claim. |
| BatchJob.JobStore.ClaimRowWindow | backend/app/title_matching/dispatch_window.py:187-237 | Against any rivals: the window starts at the cursor it replaced, ends at min(start + limit, total), and an empty answer with rows left means losing all five races. |
| BatchJob.JobStore.RecordRow | backend/app/tasks/agentic_match_task.py:294-342 | Recording a row stores it at most once, keeps the books, and handles exactly the rows the cursor passes on the way; terminates although it may claim further windows. |
| BatchJob.JobStore.StoreAndCount | backend/app/tasks/agentic_match_task.py:219-306 | Counters move exactly when this call was the first writer: processed by one, and the column that the stored result itself names. |
| BatchJob.JobStore.AfterRowTerminal | backend/app/tasks/agentic_match_task.py:309-342 | Afterwards a fully counted job is claimed, and exactly the rows the cursor passed are handled. |
| BatchJob.HandledRow | backend/app/tasks/agentic_match_task.py:541-603 | What handling means for one row: in the broker exactly once and not recorded if its arguments exist, else recorded as unrecoverable and not in the broker. |
| BatchJob.JobStore.EnqueueNextWindow | backend/app/tasks/agentic_match_task.py:541-603 | The cursor advances by the limit or to total; exactly the rows it passes are handled; the count returned is the number of rows of the first window that could be published; with nothing recoverable the cursor reaches total. |
| BatchJob.JobStore.PublishWindow | backend/app/tasks/agentic_match_task.py:564-603 | Each row of the window, and of windows claimed on the way, is published once if its arguments exist and recorded as failed if not; nothing else is published or stored; the count is that of the window's published rows. |
| BatchJob.JobStore.RecordUnrecoverable | backend/app/tasks/agentic_match_task.py:485-603 | One row whose arguments are gone is recorded and the rest of the window stays to be handled, whatever further windows were claimed meanwhile. |
| BatchJob.JobStore.DispatchBatch | backend/app/tasks/agentic_match_task.py:652-718 | An unreadable upload marks the job failed and raises with nothing published; an empty one enqueues finalize at once; otherwise exactly the rows below the cursor are handled, and with none recoverable the job ends fully failed, claimed and enqueued once. |
| BatchJob.JobStore.AssembleResults | backend/app/tasks/agentic_match_task.py:387-402 | The table has each row's stored result, or the filler. |
| BatchJob.JobStore.FinalizeBatch | backend/app/tasks/agentic_match_task.py:349-431 | No-op on a completed job, nothing changed when the upload is gone, else output, completion and deletions. |
| BatchJob.JobStore.SchedulerState | backend/app/tasks/agentic_match_task.py:606-635 | An open job is reported exactly when a row has no stored result, with its true outstanding and remaining counts. |
| Decimal.NumeralValue | dqscan/compiler.py:148-156 | Reading a decimal suffix gives its number back. |
| ScanModel.EvalDependsOnNames | dqscan/compiler.py:142-161 | A condition's truth depends only on the bind names it mentions. |
| ScanModel.SumIsCount | dqscan/compiler.py:181-208 | SUM(CASE WHEN c ...) over the window, NULL read as 0, equals COUNT(*) WHERE window AND (c), under three-valued logic. |
| ScanCompiler.GateRules | dqscan/compiler.py:66-92 | The loop splits the rules into compilable ones and dormant outcomes, in order. |
| ScanCompiler.GatePasses | dqscan/compiler.py:66-92 | A rule passes exactly when its columns exist, it is not a domain rule with nothing allowed, and it is not declared dormant. |
| ScanCompiler.GateReasons | dqscan/compiler.py:58-92 | Why it is held back: the first missing column, else the empty list, else what blocks it. |
| ScanCompiler.CompileBatch | dqscan/compiler.py:181-208 | The conditions, the merged parameters and the ids of a chunk. |
| ScanCompiler.BatchNameInjective | dqscan/compiler.py:148-156 | The name r{i}_allowed_{j} determines i and j. |
| ScanCompiler.NotWindowName | dqscan/compiler.py:121-122 | No generated name is a window parameter. |
| ScanCompiler.MergedAt | dqscan/compiler.py:194-204 | Merging over a chunk of any size overwrites nothing: each domain rule finds its own values under its own names, and no other names appear. |
| ScanEngine.CompiledBatch | dqscan/engine.py:232-239 | Running what compile_batch returns, under its merged parameters and the window's, is running the chunk's batch. |
| ScanEngine.DomainMeaning | dqscan/compiler.py:148-156 | A domain condition is true exactly on a present, non-empty value outside the allowed list, and never unknown, under either naming of its parameters. |
| ScanEngine.DomainFindings | dqscan/compiler.py:164-178 | The rows a domain rule's own statement selects are the out-of-domain rows of the window. |
| ScanEngine.SameMeaning | dqscan/engine.py:239 | A rule's condition under the merged parameters equals its own condition under its own parameters. |
| ScanEngine.BatchCountIsOwnCount | dqscan/engine.py:232-239 | Each count of the single pass equals the count of the rule's own statement. |
| ScanEngine.ProcessBatch | dqscan/engine.py:228-270 | The loop computes the batch's outcomes, whose contents BatchReports gives. |
| ScanEngine.BatchReports | dqscan/engine.py:185-270 | On a timeout one error per rule, on any other failure each rule's own execution; else each rule's own sum is reported: percentage its share of the scanned rows, calibration exactly when declared or when an active rule's share exceeds the threshold, an error when its details cannot be fetched. |
| ScanEngine.IndividualReports | dqscan/engine.py:185-225 | A rule alone: the error of its count or details, else the same report of its own count. |
| ScanEngine.OutcomeOfBatchCount | dqscan/engine.py:258-269 | One iteration: details only for findings, an error outcome if they cannot be fetched, else classification. |
| ScanEngine.BatchIsIndividual | dqscan/engine.py:210-270 | With the counting statements served and every rule's own statement kept and bound, a batch runs without its fallback and returns the list one-by-one execution returns, outcome for outcome, even when detail queries fail. |
| ScanEngine.BatchDiffersExactly | dqscan/engine.py:210-270 | For a served chunk, whatever ids repeat, the two lists agree if and only if the batch statement is unbound, or each rule's kept statement is bound and counts what the batch counts for the rule (or both find rows whose details cannot be fetched). |
| ScanEngine.OwnNamesDecide | dqscan/engine.py:228-270 | When every rule's own statement is kept, the two lists agree if and only if no expression is bound by the merged parameters alone. |
| ScanExamples.CaptureExample | dqscan/compiler.py:158-161 | A concrete chunk on which the two paths differ, by a captured name. |
| ScanExamples.SharedIdExample | dqscan/engine.py:218-222 | A concrete chunk on which they differ because two rules share an id: the first counts nothing in the batch and one row on its own. |
| ScanEngine.TruncatedExactly | dqscan/engine.py:185-207 | The count is the number of rows the kept statement matches, truncated holds if and only if it exceeds the cap, and the details are its first cap rows. |
| ScanRun.CompileAll | dqscan/engine.py:81-95 | The loop keeps the last compiled rule under each id and one error outcome for each rule that does not compile. |
| ScanRun.KeptAt | dqscan/engine.py:81-95 | Every rule that compiles finds a statement under its id, from a rule with that id that compiles, and no other id has one. |
| ScanRun.ChunksFlatten | dqscan/engine.py:110-112 | Chunking keeps every rule in order, in non-empty chunks of at most ten. |
| ScanRun.ItemsHoldAll | dqscan/engine.py:97-103 | The work items hold every rule that has a statement exactly once, in lists of one to ten. |
| ScanRun.BatchesFirst | dqscan/engine.py:31-103 | Presence, format, cross-column and domain rules come first, in tens with one shorter batch at the end; every other rule is an item by itself. |
| ScanRun.UnservedReports | dqscan/engine.py:72-132 | What is reported of a rule held back, not compiled, or skipped at an interrupt: its status and reason, and nothing else. |
| ScanRun.Work | dqscan/engine.py:108-132 | The work loop and its interrupt handler: outcomes so far, then one skipped outcome for each rule whose id is not marked as processed; no report if a batch cannot be compiled. |
| ScanRun.Run | dqscan/engine.py:45-155 | A whole run's outcomes for any list of rules: gated, failed to compile, executed or skipped, in that order, or none when it is aborted. |
| ScanRun.OutcomeLaw | dqscan/engine.py:72-132 | For every list of rules and every pattern of gating, compile errors, statement failures and interrupts, the rules a report has outcomes for, with the rules lost, are all rules, the failing rules whose id has a statement, and the rules recorded under an unmarked id, counted with multiplicity. |
| ScanRun.OneOutcomeExactly | dqscan/engine.py:81-132 | A report has exactly one outcome for each rule if and only if no recorded rule was left unmarked and the rules an interrupt lost are exactly the failing rules that share an id. |
| ScanRun.DistinctOutcomes | dqscan/engine.py:118-132 | With distinct ids no run is aborted, and it has exactly one outcome for each rule if and only if no interrupt falls between recording an item and marking its last rule. |
| ScanRun.BatchingInvisible | dqscan/engine.py:97-124 | With distinct ids, when the counts of batches are served and no name is borrowed, an uninterrupted run reports what running every rule alone would. |
| ScanRun.SharedIdsExactly | dqscan/engine.py:81-124 | An uninterrupted report has exactly one outcome for each rule if and only if no rule that fails to compile shares its id with one that compiles. |
| ScanExamples.LostExample | dqscan/engine.py:125-132 | Two rules share an id and Ctrl+C comes during the second: the first has an outcome, the second none. |
| ScanExamples.MixedUpExample | dqscan/engine.py:81-132 | The same when the first fails to compile: it has two outcomes and the second none, although the ids balance. |
| ScanExamples.TwiceExample | dqscan/engine.py:118-132 | Ctrl+C comes before an executed rule is marked: it has two outcomes. |
| ScanExamples.SharedExample | dqscan/engine.py:81-98 | A rule of an unknown class shares an id with one that compiles: it has two outcomes. |
| ScanExamples.AbortExample | dqscan/engine.py:231-240 | A rule whose condition cannot be built enters a batch by a shared id: no report. |
| SheetNames.Clean | dqscan/report.py:220-222 | The cleaned name has no forbidden character, and a name without one is unchanged. |
| SheetNames.CleanJoins | dqscan/report.py:221 | Cleaning works character by character. |
| SheetNames.CleanChar | dqscan/report.py:18-18 | Exactly the seven characters []:*?/\\ are dropped. |
| SheetNames.BaseIsCut | dqscan/report.py:221-222 | The base name is the cleaned id cut to 31 characters, or 'rule' when nothing is left. |
| SheetNames.FiringMembers | dqscan/report.py:39-48 | An outcome gets a sheet exactly when it ran as active or calibration, counted something, and has details. |
| SheetNames.CandidateFits | dqscan/report.py:227-230 | A suffixed candidate is allowed and non-empty, and fits a title if and only if its suffix does. |
| SheetNames.CandidateInjective | dqscan/report.py:227-230 | Different suffix numbers give different candidates, whatever was cut off. |
| SheetNames.ChosenOnce | dqscan/report.py:220-233 | The rule "base name, else least free suffix" determines one title. |
| SheetNames.SanitizeSheetName | dqscan/report.py:220-233 | The search ends within one try more than there are used titles, with the base name or the least free suffix; the title is unused, allowed, non-empty and at most 31 characters while suffixes fit. |
| SheetNames.WriteReport | dqscan/report.py:21-52 | One title per firing outcome in order, after the fixed sheets; all titles pairwise distinct and acceptable. |
| UsageModel.DayOfHour | backend/app/observability/queries.py:161-164 | The day of an hour bucket is the day of every timestamp in it. |
| UsageModel.UpsertSum | backend/app/tasks/usage_rollup_task.py:116-134 | Accumulating under a key adds exactly the new sums to every total that includes the key. |
| UsageStore.CutAdvances | backend/app/tasks/usage_rollup_task.py:84-139 | Taking the next rows after the watermark moves the cut in the history past exactly those rows. |
| UsageStore.RollupInv | backend/app/tasks/usage_rollup_task.py:66-147 | A rollup of any batch size keeps: the table holds exactly the rows up to the watermark under every selection of keys, and the raw log every row above it. |
| UsageStore.PruneInv | backend/app/tasks/usage_rollup_task.py:154-187 | A prune at any cutoff keeps the same. |
| UsageStore.PruneExactly | backend/app/tasks/usage_rollup_task.py:154-187 | A prune deletes exactly the rows older than the cutoff and at or below the watermark, and none before the first rollup. |
| UsageStore.BatchExactly | backend/app/tasks/usage_rollup_task.py:84-92 | A rollup takes the first rows above the watermark, up to the batch size. |
| UsageStore.RunInv | backend/app/tasks/usage_rollup_task.py:66-187 | So does every run of appends, rollups and prunes. |
| UsageStore.Tables.Record | backend/app/observability/llm_logging.py:68-92 | Logging appends to the raw table and keeps the invariant. |
| UsageStore.Tables.RollupHourly | backend/app/tasks/usage_rollup_task.py:66-147 | One transaction: folds the next batch, advances the watermark to its last id, returns its size; nothing to do changes nothing. |
| UsageStore.Tables.PruneLogs | backend/app/tasks/usage_rollup_task.py:154-187 | Deletes exactly the old rows at or below the watermark, and none before the first rollup. |
| UsageStore.GroupRows | backend/app/tasks/usage_rollup_task.py:93-114 | The grouping loop accumulates each row under its hour and dimensions. |
| UsageStore.MergeGroups | backend/app/tasks/usage_rollup_task.py:116-135 | The upsert loop merges each group into the table. |
| UsageQueries.ScanCounts | backend/app/observability/queries.py:60-81 | The scan's requests, cache hits and failures are the numbers of selected rows, of hits and of rows without success among them, and its other fields total their columns. |
| UsageQueries.SelectedExactly | backend/app/observability/queries.py:103-141 | Selected are the rows from the full hour of the start to before the end that have the value of every filter that is set. |
| UsageQueries.QueryIsScan | backend/app/observability/queries.py:103-158 | For every filter, every part of the key space and any end: the merged query is the scan of all history plus exactly the folded rows between a mid-hour end and the next hour. |
| UsageQueries.AlignedQueryIsScan | backend/app/observability/queries.py:144-158 | With an hour-aligned end the merged query is the scan. |
| UsageQueries.MidHourExactly | backend/app/observability/queries.py:103-158 | With any end it is the scan if and only if no folded row lies past the end in the end's hour. |
| UsageQueries.MidHourBounds | backend/app/observability/queries.py:103-158 | Field by field it lies between the scan to the end and the scan to the next hour. |
| UsageTorn.TornQuery | backend/app/observability/queries.py:96-158 | Watermark, buckets and tail read at three moments, with any logging, rollups and prunes between: the answer and the missed rows are the scan, the overhang, and once more the rows seen twice. |
| UsageTorn.TornExactly | backend/app/observability/queries.py:96-158 | With an aligned end the three reads agree with the scan if and only if the sums of rows seen twice and rows missed are equal; with none of one kind, if and only if no matching row is of the other. |
| UsageTorn.WatermarkTells | backend/app/observability/queries.py:96-158 | No row is seen twice unless the watermark moves between the first two reads, and none missed unless it moves between the last two. |
| UsageTorn.DoubleCountExample | backend/app/observability/queries.py:144-158 | One row rolled up between the first two reads: counted twice. |
| UsageTorn.MissedRowExample | backend/app/observability/queries.py:144-158 | One row rolled up and pruned between the last two reads: reported as nothing. |
| UsageViews.AddRow | backend/app/observability/queries.py:69-81 | Adding a raw row field by field adds what the rollup would have added for it; ScanCounts says what that is. |
| UsageViews.Summary | backend/app/observability/queries.py:144-158 | The two loops return the merged sums, and with an aligned end the counts and column totals of the selected rows of all history. |
| UsageViews.DerivedMeans | backend/app/observability/queries.py:84-93 | Each derived figure is absent without requests, else its own total over their number. |
| UsageViews.SummaryRates | backend/app/observability/queries.py:84-93 | Failure and cache-hit rates lie in [0, 1] in every reachable store. |
| UsageViews.SameGroup | backend/app/observability/queries.py:167-201 | A raw row's group is its bucket's group in every view: NULL with '', day of timestamp with day of bucket. |
| UsageViews.GroupBy | backend/app/observability/queries.py:167-201 | The two loops build one dictionary of buckets and tail rows. |
| UsageViews.GroupsArePart | backend/app/observability/queries.py:167-201 | Any selection of groups sums to the query over the keys it stands for, and keys are distinct. |
| UsageViews.ViewsAgree | backend/app/observability/queries.py:144-215 | Hour points, day points and breakdown rows of each dimension all sum, field by field, to the summary's totals. |
| UsageViews.GroupsAreGroupBy | backend/app/observability/queries.py:167-215 | With an aligned end each group holds the counts and totals of its own selected rows, by the hour, day or column the view names, and is shown if and only if it has one. |
| UsageViews.RowGroupMeans | backend/app/observability/queries.py:161-205 | A row's group is the hour or day its time lies in, or its own value of the view's column, '' for NULL. |
| UsageViews.Timeseries | backend/app/observability/queries.py:167-189 | The points are the groups, each once, by rising time, and sum to the totals. |
| UsageViews.Breakdown | backend/app/observability/queries.py:192-215 | The rows are the groups, each once, by falling cost, and sum to the totals. |
| UsageViews.DedupeStats | backend/app/observability/queries.py:218-267 | One entry per task with its attempts, hits, hit rate and savings; overall attempts and hits are the summary's, the rate lies in [0, 1], savings are the sum over tasks. |
| UsageViews.DedupeMeaning | backend/app/observability/queries.py:236-259 | A task's rate is a rate, and its cost plus its savings is what all attempts would have cost at the average billed price. |
| KeyRotation.SlotTells | backend/app/deleted_showtimes/serp_key_rotation.py:94-153 | For every interleaving of marks and any clocks, a slot's row gives the start of the current cooldown, the number of failures since, and the last error. |
| KeyRotation.EpochIsShort | backend/app/deleted_showtimes/serp_key_rotation.py:98-110 | Every repeat within a cooldown came less than one cooldown after its start, from the same key: repeats never push the timer. |
| KeyRotation.TimerMovesOneCooldown | backend/app/deleted_showtimes/serp_key_rotation.py:126-147 | For one key the timer only ever moves by at least one cooldown. |
| KeyRotation.UsableExactly | backend/app/deleted_showtimes/serp_key_rotation.py:177-190 | A slot may be tried at t exactly when t is one cooldown past the start of the current one, and that is exactly when a failure at t would start a new one. |
| KeyRotation.SelectCandidates | backend/app/deleted_showtimes/serp_key_rotation.py:156-197 | The usable keys in order; if there are none, the error of the most recent cooldown. |
| KeyRotation.CandidatesInOrder | backend/app/deleted_showtimes/serp_key_rotation.py:156-190 | The usable keys are tried in the order of the pool. |
| KeyRotation.OneCandidate | backend/app/deleted_showtimes/serp_key_rotation.py:177-190 | A key is tried exactly when it has no row or its row makes it usable. |
| KeyRotation.RotatingClient.MarkExhausted | backend/app/deleted_showtimes/serp_key_rotation.py:94-153 | The upsert writes one slot, with the CASE decision for a fresh or repeated failure. |
| KeyRotation.RotatingClient.TryCandidates | backend/app/deleted_showtimes/scrapedo_key_rotation.py:207-242 | Against any marks by other workers: the first key not rejected decides; the rejected ones before it are marked once each; only a served attempt is added to the counters. |
| KeyRotation.RotatingClient.Search | backend/app/deleted_showtimes/serp_key_rotation.py:245-301 | The same over the configured keys, with the attempted and configured counts in the error. |
| KeyRotation.SlotTimer | backend/app/deleted_showtimes/serp_key_rotation.py:94-153 | A key usable when a search begins, then marked by any workers in any order: its timer stands at the time of one of the marks, and each mark came less than a cooldown after it. |
| KeyRotation.AfterAllExhausted | backend/app/deleted_showtimes/serp_key_rotation.py:268-301 | After a search that rejected every candidate amid rival marks, a tried key returns exactly one cooldown after its timer, which is its own mark if no rival marked it and never a whole cooldown older; an unmarked cooling key returns when it would have. |
| JobSemaphore.PrefixesApart | backend/app/deleted_showtimes/job_semaphore.py:49-50 | Jobs whose ids have no colon own disjoint sets of holder keys. |
| JobSemaphore.RunInv | backend/app/deleted_showtimes/job_semaphore.py:27-104 | Every run of acquires, releases, finishes, deaths and time keeps each job's live keys within its cap and every key expiring within the time to live. |
| JobSemaphore.NeverOverCap | backend/app/deleted_showtimes/job_semaphore.py:27-91 | In every reachable state a job's live keys are at most its cap; and its running calls too, if every call ends within the time to live. |
| JobSemaphore.SlowCallOverlaps | backend/app/deleted_showtimes/job_semaphore.py:44-46 | Without that, two calls can run under a cap of one: a concrete run. |
| JobSemaphore.DeadHoldersFree | backend/app/deleted_showtimes/job_semaphore.py:27-47 | Once a time to live has passed, a key that is live was acquired since. |
| JobSemaphore.AcquireSlot | backend/app/deleted_showtimes/job_semaphore.py:65-92 | The retry loop takes the first slot it sees, times out only at a refusal at or past the deadline, and tries boundedly often. |
| DetectionIndex.SplitJoin | backend/app/intl_detection/engine.py:75-83 | Splitting two texts joined by a bar gives the parts of both. |
| DetectionIndex.SplitSegments | backend/app/detection/engine.py:91-99 | The loop strips every part and drops the ignored ones. |
| DetectionIndex.StripMeans | backend/app/detection/engine.py:91-99 | Stripping removes white space from both ends, and all of it there. |
| DetectionIndex.LooseMatchMeans | backend/app/detection/engine.py:124-147 | A mapping matches loosely exactly when it has tokens and all are the segment's, or its keyword, long enough, begins the segment. |
| DetectionIndex.FirstOfSorted | backend/app/intl_detection/engine.py:38-56 | First in tier order is, of the unsorted list, the lowest tier number and the earliest entry of that tier. |
| DetectionIndex.LastOfSorted | backend/app/detection/engine.py:60-65 | Last in tier order is the highest tier number and the latest entry of that tier. |
| DetectionIndex.IndexFirst | backend/app/intl_detection/engine.py:47-56 | Filling a dictionary with setdefault answers every key as a search from the front. |
| DetectionIndex.IndexLast | backend/app/detection/engine.py:63-65 | A dictionary comprehension answers every key as a search from the back. |
| DetectionIndex.GuardSkipsNothing | backend/app/detection/engine.py:124-127 | With a positive minimum length the guard before the Track C scan skips no match. |
| DetectionDomestic.BuildIndex | backend/app/detection/engine.py:52-76 | The index of a mapping list: sorted mappings and last-writer-wins dictionaries. |
| DetectionDomestic.MatchSegment | backend/app/detection/engine.py:101-155 | Lookups and scan return what the three linear searches return, in track order. |
| DetectionDomestic.ScanTrackC | backend/app/detection/engine.py:127-153 | The scoring loop keeps the first match in tier order. |
| DetectionDomestic.CollisionGoesToLast | backend/app/detection/engine.py:60-155 | On Tracks A and B no colliding mapping has a higher tier number than the answer, on Track C none a lower; no answer means no mapping passes any test. |
| DetectionDomestic.AnswersInOrder | backend/app/detection/engine.py:101-155 | Exact forms answer before stopword forms before the scan, the first two with the last match in tier order and the scan with the first; no answer exactly when none matches or the scan is not tried. |
| DetectionDomestic.NestedIsLexicographic | backend/app/detection/engine.py:231-266 | At different positions the nested comparison is: tier, matching circuit, any circuit, position; its keyword-length and track branches never decide. |
| DetectionDomestic.EqualPositions | backend/app/detection/engine.py:231-266 | At one position and with the same circuit standing the longer keyword wins, and at one length the earlier track; two hits never both win. |
| DetectionDomestic.BestIsLeast | backend/app/detection/engine.py:220-266 | The loop's hit precedes every other hit of the segments under that rule; there is none exactly when no segment matches. |
| DetectionDomestic.BestHit | backend/app/detection/engine.py:218-266 | The loop over segments computes that hit. |
| DetectionDomestic.CircuitEntryDecides | backend/app/detection/engine.py:67-171 | A hit is shown in the format of the circuit's own entry for its keyword (highest tier number, latest entry), else its own format, its default, or Standard. |
| DetectionDomestic.CircuitResolves | backend/app/detection/engine.py:86-89 | A circuit's name is resolved by its alias, white space and case aside, to lower case. |
| DetectionDomestic.Detect | backend/app/detection/engine.py:173-327 | Which layer decides and the whole answer it gives: format, track, keyword and source label; the AI is asked exactly when no override applies and no segment matches. |
| DetectionIntl.BuildIndex | backend/app/intl_detection/engine.py:38-65 | The index of a mapping list: sorted mappings and first-writer-wins dictionaries. |
| DetectionIntl.MatchSegment | backend/app/intl_detection/engine.py:85-138 | Each lookup and the scan return what a linear search in tier order returns. |
| DetectionIntl.NoBetterTier | backend/app/intl_detection/engine.py:85-138 | Whichever track and sub-check answers, no mapping passing the same test has a lower tier number; no answer means none passes any test. |
| DetectionIntl.AnswersInOrder | backend/app/intl_detection/engine.py:85-138 | Exact forms answer before stopword forms before joined forms before the scan, each with the first match in tier order; no answer exactly when none matches or the scan is not tried. |
| DetectionIntl.JoinedMeans | backend/app/intl_detection/engine.py:102-113 | The joined forms match exactly when the segment's is not empty and both are one text. |
| DetectionIntl.ReplacesRule | backend/app/intl_detection/engine.py:152-176 | The nested comparison is: lower tier, earlier segment, longer keyword, earlier track; two hits never both win. |
| DetectionIntl.Detect | backend/app/intl_detection/engine.py:140-197 | The answer has the format, keyword, tier and track of a mapping that answers some segment, no segment having a lower tier and no earlier one the same; or it is Standard and nothing else, exactly when no segment is answered. |
| DetectionIntl.JoinCombines | backend/app/intl_detection/engine.py:75-197 | Detecting in two texts a and b joined by a bar gives detect(a), unless a has no hit or b has a hit of a lower tier number: then detect(b). |
| CalendarChunks.ChunksJoin | backend/app/calendar_extract/extractor.py:34-50 | Any grouping of the sections is lossless. |
| CalendarChunks.GreedyStaysAhead | backend/app/calendar_extract/extractor.py:42-47 | No grouping that meets the rule has fewer groups than the greedy one, and one with as many has a last group at least as long. |
| CalendarChunks.GreedyIsOptimal | backend/app/calendar_extract/extractor.py:34-50 | The greedy grouping meets the rule (a single section or within the target) with the fewest groups possible. |
| CalendarChunks.ChunkText | backend/app/calendar_extract/extractor.py:34-50 | The loop's chunks concatenate to the text from the first header on and are fewest possible; without headers the text is one chunk. |
| BlockDates.DayNumberInjective | backend/app/deleted_showtimes/normalize.py:185-205 | Different valid dates have different day numbers. |
| BlockDates.EveryDayIsADate | backend/app/deleted_showtimes/normalize.py:185-205 | The day numbers of valid dates are all of 1 to LAST_DAY. |
| BlockDates.NearestOfThree | backend/app/deleted_showtimes/normalize.py:197-205 | The best of the three years tried is the nearest over all years 1 to 9999, February 29 included, the earliest on ties. |
| BlockDates.NearestDateIsNearest | backend/app/deleted_showtimes/normalize.py:185-205 | The chosen date is that nearest one; none is chosen exactly when the day exists in none of the three years. |
| BlockDates.NearestTried | backend/app/deleted_showtimes/normalize.py:197-205 | The loop over the three years computes it. |
| BlockDates.LabelReadsBack | backend/app/deleted_showtimes/normalize.py:185-205 | The month and day of a real date within 182 days of the target read back as that date. |
| BlockDates.ResolveBlockDates | backend/app/deleted_showtimes/normalize.py:208-233 | The loops compute the resolution that the next rows describe. |
| BlockDates.ValueErrorExactly | backend/app/deleted_showtimes/normalize.py:190-192 | A ValueError is raised exactly when some block carries a full date that is no date. |
| BlockDates.OverflowErrorExactly | backend/app/deleted_showtimes/normalize.py:219-224 | With a dated anchor an OverflowError is raised exactly when the row would leave the calendar. |
| BlockDates.NamedDayIsToday | backend/app/deleted_showtimes/normalize.py:225-233 | Without a readable date the first block named today or tomorrow is today or the day after. |
| BlockDates.ConsecutiveDays | backend/app/deleted_showtimes/normalize.py:208-233 | With any anchor the blocks are consecutive days of the calendar; without one there are no dates. |
| BlockDates.ClockIrrelevant | backend/app/deleted_showtimes/normalize.py:210-224 | If any block carries a readable date the result does not depend on today. |
| BlockDates.AtMostOneTarget | backend/app/deleted_showtimes/normalize.py:208-233 | At most one block is the target's day. |
| BlockDates.RealDaysRecovered | backend/app/deleted_showtimes/normalize.py:185-233 | A row of real consecutive days, some labelled with month and day or a full date, resolves to those days, if the first label is a full date or within 182 days of the target. |

## Left out

- HTTP routers, the web front end, file rendering, e-mail and object storage: input and output only.
- Bedrock, SerpApi, scrape.do, Vespa and the sandbox: their answers are parameters of the steps that use them.
- The matching pipeline inside a row task: its answer or failure is a parameter of the store step.
- Sizing of dispatch windows and the round-robin order of the beat scheduler: a top-up may ask for any window at any time.
- Loss of a broker message and the death of a worker process: assumed not to happen; a finalize task may die at any point.
- BatchJob.JobStore.DispatchBatch: an exception in its own claim or publishing marks the job failed; the transition system has it as an interrupt of worker 0.
- Bodies of cross_row, custom and cross_table statements: each is one opaque condition here, never batched.
- Placeholder substitution, detail columns and the text of SQL statements: the model starts from conditions.
- A Ctrl+C before the work loop starts, or a second one inside the interrupt handler: the run then ends without a report.
- Job ids with glob characters, which the SCAN pattern of the semaphore would match as wildcards.
- BatchFinalize.RightAfterDeletion: compares the stored answers with the first ones row by row, because after the deletion nothing else decides.
- ScanEngine.BatchDiffersExactly: for rules that share an id the condition compares counts, which depend on the table; ScanEngine.OwnNamesDecide gives the guard for distinct ids.
- Case-insensitive renaming of duplicate sheet titles by the spreadsheet library: titles are compared exactly.
- Rounding of floating-point costs, and writes to the scanned table between a count and its detail query.
- serpapi_credits: a plain selection of the latest snapshot per slot.
- Failing open when the slot table or Redis is missing: one fixed key, or no cap.
- JobSemaphore.NeverOverCap: SCAN may report a key twice, which can only refuse more, so live keys are counted once.
- extract_calendar_rows and the row validation: counting of failed calls.
- Regular expressions and Unicode normalisation of titles, theatres, amenities and dates.
- movie_detection, scrapedo_semaphore and the lobby-check extractor: near copies of what is modelled.
