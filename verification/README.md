# BAGMAN core, verified in Dafny

This project models the parts of BAGMAN whose correctness depends on state kept over many calls,
and proves what the repository's code promises about them for every input, run and interleaving.

| file | what it models |
|---|---|
| `Identity.dfy` | UUIDv7 identifiers: bit packing, the borrowing counter, printed order, parsing |
| `Audit.dfy` | the append-only audit log, its two indexes and cursor paging |
| `Jobs.dfy`, `JobRuns.dfy` | the durable job queue: state machine, stale recovery, claiming; retry budget, termination measure and bounded waiting over whole runs |
| `Invocations.dfy` | the AI invocation ledger: state machine, active-subject index, lazy stale recovery |
| `Lifecycle.dfy` | the two callers that live an invocation end to end: background gateway and operator orchestrator |
| `Worker.dfy`, `Fleet.dfy` | the overflow worker that ties queue and ledger together; any number of them, interleaved and killed anywhere |
| `Checkpoint.dfy` | the append-only checkpoint file of two scripts: reading, appending, crashing in between |
| `Migration.dfy` | the resumable object-store migration under failing calls |
| `Backup.dfy` | backup to a directory tree and restore from it |
| `Reprocess.dfy` | gated, replayable reprocessing of evidence |
| `Composition.dfy` | resolve-or-create under double-checked locking, as interleaved thread steps |
| `HttpHeaders.dfy` | Content-Disposition headers, with an independent reader of them |
| `Evaluation.dfy` | interpolated percentiles and the one-pass evaluation report |
| `Common.dfy`, `Sorting.dfy` | shared values and the (time, id) order that all listings use |

How it is built. What the source updates in place is a class here (`BackgroundJobRepository`,
`InvocationRepository`, `AuditLog`, `Generator`, `MigrationRun`, `Reprocessor`, `Directory`,
`Store`); each method is proved equal to a function on the object's value, and the properties are
lemmas about those functions and about arbitrary sequences of them. Clock readings, random draws,
contract-validation verdicts, provider replies, the fate of each store call and what other callers do
meanwhile are parameters, so every theorem holds for all of them. `dafny verify dfyconfig.toml`
checks the whole project.

Assumptions that are stated where they are used: the two manifest digests that the gate compares do
not collide (`Reprocess.NoCollision`); during a migration nobody else writes to the
source or the destination; the clock does not run backwards past the creation of the waiting job
(`JobRuns.ClockAfter`); audit events that arrive while a client pages are not older than its first
cursor (`Audit.PagingSurvivesWrites`); the step theorems about a single worker assume that what
others mark SUCCEEDED is backed (`Worker.OthersHonest`), which the theorem about whole fleets does
without (`Fleet.AgreementInEveryRun`); the fallback label and the disposition of a header are what its docstring asks of callers
(`HttpHeaders.SafeLabel`, `HttpHeaders.Token`).

Where code and documentation disagree, the model follows the code:

- core/identity.py:3-10 cites section 5.2 of RFC 9562; the layout it builds is that of section 5.7.
- ai/jobs.py:318-327 says that a CLAIMED row has attempt_count 0 or comes from FAILED_RETRYABLE; a
  PENDING row can also carry spent attempts, after a release or a recovered claim. The conclusion
  (budget left) holds and is part of `Jobs.RowInv`.
- scripts/reprocess_evidence_classification.py:57-61 says that apply recomputes the manifest with
  the identical scan; the apply scan also includes items that the rule already classified.
  `Reprocess.SameMomentAgreesIff` says exactly when that makes a difference.
- scripts/migrate_object_store.py:265-273 calls the checkpoint a hint that decides nothing but report
  counters, and scripts/reprocess_evidence_classification.py:64-79 says the same of its own; a line
  that is JSON but no object, or whose key is a non-empty list or object, makes the load raise and
  the run fail. `Migration.CheckpointIrrelevantIff` and `Reprocess.CheckpointIrrelevantIff` say
  exactly when the file matters. The scripts themselves never leave such a line behind, even when
  they crash (`Migration.CrashLeavesResumable`, `Reprocess.CrashLeavesResumable`).
- scripts/reprocess_evidence_classification.py:64-79 calls a rerun self-correcting; a crash between
  the classification and its audit event loses that event for good (`Reprocess.EventLostIff`).
- ai/invocation.py:686-692 says that passing an identity field to `transition` raises, and in the
  same sentence that it does not; it does not.
- ops/backup_objects.py:5-9 promises that a restore reproduces every key; that holds exactly for
  plain keys (`Backup.BackupThenRestore`, with a counterexample in `Backup.DoubledSlashIsLost`).

## Model

| member | source | states |
|---|---|---|
| Identity.GeneratedStrictlyIncrease | core/identity.py:62-102 | for every sequence of clock readings (repeated, jumping, going backwards) and random draws, any later identifier is greater in plain string order than any earlier one, so all are distinct, while the timestamp stays below 2^48 |
| Identity.NextSortsAfterIff | core/identity.py:71-89 | the exact limit of that order: with clocks below 2^48 the next identifier sorts after the previous one if and only if the call does not overflow the counter in millisecond 2^48 - 1 |
| Identity.GeneratedParses | core/identity.py:91-102 | parsing the printed text of any call gives back its timestamp, version 7, rand_a, variant 0b10 and the low 62 bits of that call's own eight random bytes |
| Identity.SuccessiveFields | core/identity.py:71-96 | the fields that successive printed texts carry: a later millisecond starts from a fresh 12-bit draw, the same or an earlier one counts on by one, an exhausted counter (0xFFF) borrows the next tick with a fresh draw |
| Identity.FirstFields | core/identity.py:46-96 | the first text of a process carries the clock reading and the masked draws |
| Identity.TimestampTracksClock | core/identity.py:71-89 | after k calls the embedded timestamp is at least every clock reading so far and exceeds the greatest by at most k - 1 borrowed ticks |
| Identity.PackIsLayout | core/identity.py:91-96 | the successive `|=` of shifted fields builds exactly the arithmetic 48/4/12/2/62-bit layout of section 5.7 of RFC 9562, with the timestamp cut to 48 bits |
| Identity.PrintOrder | core/identity.py:98-102 | the fixed-width hyphenated text of two 128-bit values sorts as the values do |
| Identity.ParsePrint | core/identity.py:98-102 | printing is inverted by parsing for every well-sized set of fields |
| Identity.MaskKeepsRemainder | core/identity.py:54-60 | masking with 12, 48 or 62 one-bits is the remainder by the power of two, for every non-negative integer |
| Identity.Generator.constructor | core/identity.py:46-52 | the module starts with last timestamp -1 and counter 0 |
| Identity.Generator.GenerateId | core/identity.py:62-102 | one call moves the state as the specification says and returns the printed layout of the new state, whatever the clock does |
| Audit.DistinctTimesListedOnce | core/audit.py:187-200 | following `before` = last occurred_at, every event of the given type prefix is listed exactly once when timestamps are distinct |
| Audit.PagesCoverLog | core/audit.py:187-200 | in general an eligible event is missed if and only if it ties with the last event of some page and is listed after it |
| Audit.PagesDescend | core/audit.py:187-200 | the concatenated pages are strictly descending in (occurred_at, id), so pages are disjoint |
| Audit.PagesAreEligible | core/audit.py:187-200 | every event on any page is earlier than the first cursor and has the given type prefix |
| Audit.CursorAdvances | core/audit.py:187-200 | a page is empty exactly when nothing is eligible, and following its cursor strictly shrinks the eligible set, so paging ends |
| Audit.PageHoldsNewest | core/audit.py:187-200 | of the n events before the cursor and of the given type prefix a page holds the newest, as many as `[:limit]` keeps of n for any limit, descending by occurred_at and then id, each before every eligible event left out |
| Audit.AppendKeepsIndexes | core/audit.py:155-173 | appending an event keeps the correlation and the subject index equal to the log filtered in insertion order |
| Audit.PickMatching | core/audit.py:181-185 | looking the indexed identifiers up in the log gives the filtered log |
| Audit.ListingsMean | core/audit.py:181-185 | the two listings hold exactly the events with that correlation id, and with that subject type and id, each once and in insertion order |
| Audit.AuditLog.constructor | core/audit.py:124-127 | the log starts empty with both indexes exact |
| Audit.AuditLog.RecordAuditEvent | core/audit.py:129-173 | accepts an event exactly when its actor type is known and the contract holds; then the log grows by that event, otherwise nothing changes; both indexes stay exact |
| Audit.AuditLog.GetAuditEvent | core/audit.py:175-179 | returns the event of a known identifier, else NotFound |
| Audit.AuditLog.ListByCorrelation | core/audit.py:181-182 | returns all events of the correlation in insertion order |
| Audit.AuditLog.ListBySubject | core/audit.py:184-185 | returns all events of the subject in insertion order |
| Audit.AuditLog.ListRecent | core/audit.py:187-200 | the copy, the two filter loops, the backward sort and the slice yield exactly the page that the paging theorems are about |
| Audit.KeepBefore | core/audit.py:195-196 | the time filter keeps exactly the identifiers of events before the cursor, in order |
| Audit.KeepPrefix | core/audit.py:197-198 | the type filter keeps exactly the identifiers of events with the prefix, in order |
| Audit.TwoFilters | core/audit.py:194-198 | the optional filters, one after the other, keep exactly the eligible events in log order |
| Audit.PagingSurvivesWrites | core/audit.py:104-111 | while events that are not older than the first cursor keep arriving between the fetches, a client that follows the cursor reads page by page exactly the pages of the log as it was at the first fetch |
| Jobs.RecoverStaleClaim | ai/jobs.py:309-377 | recovery of a held row never meets a forbidden edge, leaves it unheld, clears the claim, records an error and neither raises nor refunds the attempt counter |
| Jobs.RecoveryTable | ai/jobs.py:294-377 | a claim older than 600 seconds: CLAIMED goes back to PENDING, IN_PROGRESS to FAILED_RETRYABLE while attempt_count is below max_attempts and to FAILED_TERMINAL otherwise, each with its own error text; every other row stays exactly as it is |
| Jobs.ChosenAreOldest | ai/jobs.py:669-686 | a claim takes exactly min(limit, available) available jobs, in ascending (created_at, job_id), each older than every available job not taken |
| Jobs.ClaimedIff | ai/jobs.py:669-686 | after recovery a row is claimed if and only if it is PENDING or FAILED_RETRYABLE and fewer than `limit` rows of those two statuses come before it by (created_at, job_id) |
| Jobs.ChosenAreClaimable | ai/jobs.py:669-686 | the taken ids are distinct rows that are PENDING or FAILED_RETRYABLE, so every claim transition is allowed |
| Jobs.ClaimHolds | ai/jobs.py:669-686 | after a claim exactly the chosen rows carry this worker's claim, with no attempt spent and nothing else changed, every other row is as recovery left it, and a chosen row goes stale only once the threshold has passed |
| Jobs.ReportedAreStale | ai/jobs.py:605-611 | the ids that a recovery pass reports are exactly the stale rows |
| Jobs.RecoveryIsAudited | ai/jobs.py:571-595 | each recovered row has exactly one audit event, in row order, about that row, by SYSTEM, with the status it is recovered to and the attempts it has spent |
| Jobs.SubmitKeepsInv | ai/jobs.py:613-667 | a submission keeps the queue invariant: one job per key, key index and rows inverse to each other, every row within its budget |
| Jobs.SubmitMeans | ai/jobs.py:613-667 | a submission is accepted exactly when key, backend, alias, max_attempts and actor type are valid; a known key gives back its one job and changes nothing, a new one appends a PENDING row with no attempt spent |
| Jobs.RecoverKeepsInv | ai/jobs.py:571-611 | a recovery pass keeps the queue invariant |
| Jobs.ClaimKeepsInv | ai/jobs.py:669-686 | recovering and claiming keep the queue invariant |
| Jobs.StartKeepsInv | ai/jobs.py:688-696 | starting an attempt keeps the queue invariant: a CLAIMED row always has budget left |
| Jobs.FinishKeepsInv | ai/jobs.py:698-703 | finishing keeps the queue invariant: exactly SUCCEEDED rows name an invocation |
| Jobs.FailKeepsInv | ai/jobs.py:705-714 | failing keeps the queue invariant: FAILED_RETRYABLE only with budget left |
| Jobs.ReleaseKeepsInv | ai/jobs.py:716-721 | releasing keeps the queue invariant |
| Jobs.AttemptCalls | ai/jobs.py:688-721 | start, success, failure and release: which status each demands, the error and the unchanged queue otherwise, and the one row as it then stands, with exactly the fields that the call rewrites |
| Jobs.BackgroundJobRepository.constructor | ai/jobs.py:559-569 | the repository starts as the empty queue |
| Jobs.BackgroundJobRepository.SubmitJob | ai/jobs.py:613-667 | validates in the source's order, returns the existing job for a known key, else appends a PENDING row; nothing else changes |
| Jobs.BackgroundJobRepository.RecoverIfStale | ai/jobs.py:571-595 | recovers and audits the row exactly when it is held and its claim is older than the threshold |
| Jobs.BackgroundJobRepository.RecoverPass | ai/jobs.py:605-611 | one pass recovers exactly the stale rows and appends their events in row order |
| Jobs.BackgroundJobRepository.RecoverStaleClaims | ai/jobs.py:597-611 | returns exactly the stale ids, with the queue and the log as after the pass |
| Jobs.BackgroundJobRepository.ClaimNextPending | ai/jobs.py:669-686 | recovers first, then claims exactly the chosen jobs for this worker; a non-positive limit does nothing at all |
| Jobs.BackgroundJobRepository.ClaimEach | ai/jobs.py:676-686 | exactly the given rows become CLAIMED by this worker now |
| Jobs.BackgroundJobRepository.MarkInProgress | ai/jobs.py:688-696 | spends one attempt and enters IN_PROGRESS, or raises and changes nothing |
| Jobs.BackgroundJobRepository.MarkSucceeded | ai/jobs.py:698-703 | records the invocation and enters SUCCEEDED, or raises and changes nothing |
| Jobs.BackgroundJobRepository.MarkFailed | ai/jobs.py:705-714 | a retryable failure with budget left becomes FAILED_RETRYABLE, any other FAILED_TERMINAL; a forbidden edge raises and changes nothing |
| Jobs.BackgroundJobRepository.ReleaseClaim | ai/jobs.py:716-721 | a CLAIMED row becomes PENDING without its claim, or the call raises and changes nothing |
| Jobs.BackgroundJobRepository.GetJob | ai/jobs.py:723-727 | returns the row of a known id, else NotFound |
| JobRuns.BoundedWaiting | ai/jobs.py:669-686 | a PENDING or FAILED_RETRYABLE job is passed over in at most as many productive worker rounds as the unfinished jobs older than it have attempts left, although retries keep their old place |
| JobRuns.PassedOverRound | ai/jobs.py:669-686 | each productive round that passes a PENDING or FAILED_RETRYABLE job over strictly lowers the remaining attempts of the jobs older than it |
| JobRuns.StepLowersOlderWork | ai/jobs.py:613-721 | no call raises the older work of a job, later submissions included, and dispatching an older job lowers it |
| JobRuns.UntakenUnchanged | ai/jobs.py:613-721 | a PENDING or FAILED_RETRYABLE row that a call does not take is left exactly as it was |
| JobRuns.RetryBudget | ai/jobs.py:309-377 | in every run a job enters IN_PROGRESS exactly attempt_count times, and that is at most max_attempts, across failures, releases and stale recoveries |
| JobRuns.AttemptsCountDispatches | ai/jobs.py:688-696 | over any run the attempt counter grows by exactly the number of entries into IN_PROGRESS |
| JobRuns.RoundLowersWork | scripts/process_background_job_overflow.py:305-378 | a worker round that claims and starts a job strictly lowers the sum over unfinished jobs of (max_attempts - attempt_count + 1), even if the worker dies right after the start |
| JobRuns.WorkBoundsDispatches | ai/jobs.py:669-721 | without new submissions that sum bounds all dispatches still to come, in any run |
| JobRuns.StepLowersWork | ai/jobs.py:669-721 | no call but a submission raises the measure; each dispatch strictly lowers it |
| JobRuns.StepMovesRow | ai/jobs.py:126-147 | no call loses a row or rewrites what was submitted; statuses move along the table (a claim may first recover); the counter grows exactly on entry to IN_PROGRESS; finished rows never change |
| JobRuns.RunKeepsInv | ai/jobs.py:550-721 | every reachable queue satisfies the queue invariant |
| JobRuns.FinishedForEver | ai/jobs.py:126-147 | a SUCCEEDED or FAILED_TERMINAL row stays as it is in every continuation |
| Invocations.OneActivePerSubject | ai/invocation.py:886-903 | at most one REQUESTED or RUNNING row exists per (task_id, task_version, primary reference), and the index names it |
| Invocations.RunKeepsInv | ai/invocation.py:905-1066 | in every reachable state the index maps a subject to an id exactly when that row is active with that subject, and completed_at is set exactly in terminal rows |
| Invocations.CreateKeepsInv | ai/invocation.py:954-1024 | creation keeps the index exact, whether it adds, conflicts, recovers or fails validation |
| Invocations.TransitionKeepsInv | ai/invocation.py:1032-1050 | a transition keeps the index exact and clears the slot of a row that ends |
| Invocations.FindActiveKeepsInv | ai/invocation.py:1052-1066 | a lookup, which may recover, keeps the index exact |
| Invocations.CreateSucceedsIff | ai/invocation.py:978-1024 | with conforming rows a creation for a subject without active row, or whose active row started over 600 seconds ago, succeeds; the old row then is FAILED if it was REQUESTED and TIMED_OUT if it was RUNNING, with its one event; with a fresher active row the creation conflicts and changes nothing |
| Invocations.CreationNeedsContract | ai/invocation.py:978-1024 | a creation whose recovered or new row violates the contract raises a validation error and adds no row |
| Invocations.CreateRefusesIff | ai/invocation.py:528-605 | a creation is refused before any row is looked at exactly for role, provider, alias and backend outside the four permitted combinations, an unknown actor type, or references without a usable key |
| Invocations.ActiveIsRequestedOrRunning | ai/invocation.py:886-903 | the row that the index names for a subject is REQUESTED or RUNNING |
| Invocations.RecoveryMatchesStatus | ai/invocation.py:415-485 | a REQUESTED or RUNNING row is recovered exactly when it started over 600 seconds ago: REQUESTED to FAILED, RUNNING to TIMED_OUT, with its own error code, the slot freed and exactly the one event written out in full; any other row is left alone |
| Invocations.LookupMeans | ai/invocation.py:1052-1066 | a lookup returns the active row while it started at most 600 seconds ago, recovers an older one and returns none, and raises without any change when the recovered row violates the contract |
| Invocations.RecoverStale | ai/invocation.py:394-485 | recovery of an active row fails only on a contract violation and otherwise ends it now with its identity kept |
| Invocations.HistoryIsPath | ai/invocation.py:258-266 | every row's status history is a path in the transition table, at most three statuses long |
| Invocations.TransitionMeans | ai/invocation.py:258-266 | the eight permitted moves, the two errors, and what a move leaves of the row: request and start stay, a terminal status stamps the completion, passed outcome fields replace the old ones |
| Invocations.MoveMeans | ai/invocation.py:1032-1050 | a transition of an unknown row raises NotFound, a refused one changes nothing, any other stores exactly the moved row and frees its slot exactly on a terminal status |
| Invocations.SameSubjectIff | ai/invocation.py:978-981 | two invocations contend for one slot exactly when task, version and derived reference agree |
| Invocations.TerminalForEver | ai/invocation.py:258-266 | a terminal row never changes again in any run |
| Invocations.RunningUntouched | ai/invocation.py:258-266 | whatever other callers do, a RUNNING row that has not ended is exactly as it was |
| Invocations.StepMovesRow | ai/invocation.py:676-736 | no call drops a row or rewrites its identity fields; it is unchanged or moves along one table edge |
| Invocations.FirstUsableIsFirst | ai/invocation.py:488-526 | the derived primary reference is the first non-empty text among the four keys in precedence order; an error means there is none |
| Invocations.FourReferences | ai/invocation.py:488-526 | the precedence written out: evidence, then intake, then entity, then conversation |
| Invocations.InvocationRepository.constructor | ai/invocation.py:889-903 | the repository starts as the empty ledger |
| Invocations.InvocationRepository.RecoverIfStale | ai/invocation.py:905-952 | recovers, frees the slot and audits exactly when the row is stale; a contract violation changes nothing |
| Invocations.InvocationRepository.CreateInvocation | ai/invocation.py:954-1024 | rows, index, result and audit log after a creation, on every path including recovery before conflict |
| Invocations.InvocationRepository.GetInvocation | ai/invocation.py:1026-1030 | returns the row of a known id, else NotFound |
| Invocations.InvocationRepository.TransitionStatus | ai/invocation.py:1032-1050 | moves the row, replaces exactly the outcome fields that are passed and clears its slot on a terminal status, or raises and changes nothing |
| Invocations.InvocationRepository.FindActiveInvocation | ai/invocation.py:1052-1066 | returns the active id, or none after recovering a stale one |
| Lifecycle.BackgroundReturns | ai/gateway/background.py:221-410 | whenever run_background_task returns, its invocation is terminal, its slot free, its events share one correlation id and form a permitted chain rooted at REQUESTED in which a failure after a rejection is caused by the rejection; SUCCEEDED exactly when the provider was OK and the output validated |
| Lifecycle.OperatorReturns | agent/claude_code/orchestrator.py:247-447 | the same for handle_operator_message, where a timeout ends in TIMED_OUT and every failure event is caused by the request |
| Lifecycle.BackgroundRecords | ai/gateway/background.py:221-410 | field by field what a returning background call leaves: the row with the caller's own request, one of the four outcomes, and around it the request event and the closing events with the caller's actor and correlation id, their types, causes and payloads |
| Lifecycle.OperatorRecords | agent/claude_code/orchestrator.py:231-447 | the same for a returning operator message (ASK_BAGMAN v1, OPERATOR, ANTHROPIC, no alias, MAC_LOCAL): completed, invalid output, timeout and runner error, every failure caused by the request |
| Lifecycle.BackgroundTells | ai/gateway/background.py:270-410 | when a background call returns, the last audit event and the row tell the same story: success with output and no error code, or a failure event with the row's own error code |
| Lifecycle.OperatorTells | agent/claude_code/orchestrator.py:275-447 | the same for every operator message that returns |
| Lifecycle.BackgroundRaisesIff | ai/gateway/background.py:250-355 | an undisturbed call that reached RUNNING returns exactly when a prompt is found and its last row conforms; otherwise it raises NotFound or a contract violation respectively, and the row stays RUNNING with its slot held |
| Lifecycle.OperatorRaisesIff | agent/claude_code/orchestrator.py:271-447 | an undisturbed operator message that reached RUNNING returns exactly when the referenced records are found and its last row conforms; otherwise it raises and leaves the row RUNNING with its slot held |
| Lifecycle.BackgroundRefuses | ai/gateway/background.py:192-235 | an unknown task, a task of another role, a schema mismatch and a refused creation end the call before anything is written by it, with the source's errors |
| Lifecycle.BackgroundKeepsInv | ai/gateway/background.py:153-410 | returning or raising, a background call keeps the subject index exact |
| Lifecycle.OperatorKeepsInv | agent/claude_code/orchestrator.py:187-447 | so does every operator message |
| Lifecycle.ActiveIsNotAudited | ai/invocation.py:905-952 | while an invocation is active no other caller of the repository appends an event about it |
| Lifecycle.RunBackgroundTask | ai/gateway/background.py:153-355 | the ledger, the log and the result after the call, with any other callers at work during the provider call |
| Lifecycle.RejectOutput | ai/gateway/background.py:357-410 | a rejected output ends the row FAILED and appends the rejection and the failure it causes |
| Lifecycle.ConcludeCall | ai/gateway/background.py:270-355 | each provider answer leads to its own terminal status and events |
| Lifecycle.HandleOperatorMessage | agent/claude_code/orchestrator.py:187-447 | the ledger, the log and the result after one operator message |
| Lifecycle.ConcludeOperator | agent/claude_code/orchestrator.py:275-447 | each runner result leads to its own terminal status, with the rejection audited before the row moves |
| Worker.ProcessOneKeepsAgreement | scripts/process_background_job_overflow.py:305-344 | one job of one worker, as a step of the script, keeps queue and ledger in agreement whatever the provider answers, if what others mark meanwhile is backed; Fleet.AgreementInEveryRun needs no such condition |
| Worker.RunProcessKeepsAgreement | scripts/process_background_job_overflow.py:359-378 | the same for one whole run, also when a job raises and ends it |
| Fleet.AgreementInEveryRun | scripts/process_background_job_overflow.py:305-378 | for any number of workers running the script, interleaved call by call with each other and with all other callers and killed between any two calls, each SUCCEEDED job names an invocation that SUCCEEDED for its task and version on the trinity-core backend, each key names one job and each subject has at most one active invocation; nothing is assumed about anyone |
| Fleet.StepKeepsInv | scripts/process_background_job_overflow.py:305-378 | one call of one worker, its death, or a call of anybody else keeps that, together with what every other worker relies on |
| Fleet.CloseIsFair | scripts/process_background_job_overflow.py:336-356 | a worker marks a job succeeded only with an invocation that was made for it and that succeeded |
| Fleet.FleetIsQueueRun | scripts/process_background_job_overflow.py:305-378 | what a fleet does to the queue is a run of queue calls, so the run theorems apply to it |
| Fleet.BudgetInEveryRun | scripts/process_background_job_overflow.py:305-378 | no fleet dispatches a job more often than max_attempts, however its workers die |
| Fleet.KilledJobComesBack | ai/jobs.py:571-611 | a killed worker makes no further call, and the job it was running is claimable again, or finished when its budget is spent, after the first recovery more than 600 seconds after its claim |
| Fleet.AloneIsProcessOne | scripts/process_background_job_overflow.py:305-356 | a worker that nobody disturbs takes a job, call by call, through exactly what the model of `_process_one` does to queue and ledger |
| Worker.AgreementForEver | scripts/process_background_job_overflow.py:305-344 | a SUCCEEDED job and the invocation it names stay as they are in every continuation of both repositories |
| Worker.AnswerDecidesJob | scripts/process_background_job_overflow.py:301-356 | undisturbed, one attempt is spent and the job ends SUCCEEDED exactly when the output is JSON that matches the schema, is claimable again exactly when the subject was busy or the provider answered TRANSPORT_ERROR, TIMEOUT or RATE_LIMITED and budget is left, and is finished for good otherwise |
| Worker.AnswerIsRecorded | scripts/process_background_job_overflow.py:324-356 | what the job row records of each answer: the invocation that succeeded, or the conflict, the defect, the provider's code or the rejection code as its last error |
| Worker.CooperativeJobSucceeds | scripts/process_background_job_overflow.py:305-344 | progress: a claimed job for evidence that nobody else works on ends SUCCEEDED, naming the new invocation, when task, prompt, contracts and provider cooperate, whatever capability the task prefers |
| Worker.ProcessCrashesIff | scripts/process_background_job_overflow.py:305-378 | the script dies on a job exactly when the row is no longer CLAIMED, when the gateway meets a forbidden transition, or when others moved the row on before it could be closed |
| Worker.AnswerClassified | scripts/process_background_job_overflow.py:341-356 | the classification of a returned invocation depends only on what the provider answered |
| Worker.GatewayIsRun | ai/gateway/background.py:153-410 | the gateway changes the ledger only through repository calls, so every theorem about runs applies to it |
| Worker.WorkerRoundIsProductive | scripts/process_background_job_overflow.py:359-378 | every run of the script that reaches its first job acts on the queue as a productive round of the bounded-waiting theorem |
| Worker.KeyIdentifiesEntry | scripts/process_background_job_overflow.py:246-248 | with colon-free task ids and versions, two submissions share an idempotency key exactly when task, version and evidence agree |
| Worker.ProcessJob | scripts/process_background_job_overflow.py:305-356 | queue, ledger, log and outcome after one job; an exception that the script does not catch ends the worker |
| Worker.CloseJob | scripts/process_background_job_overflow.py:324-356 | the attempt is closed as the gateway's answer is classified; closing a row that is no longer IN_PROGRESS raises |
| Worker.ProcessJobs | scripts/process_background_job_overflow.py:368-377 | the claimed jobs are processed in order until one raises |
| Worker.RunOverflow | scripts/process_background_job_overflow.py:359-378 | one processing run: claim, then process the claimed jobs |
| Worker.ClaimAudits | scripts/process_background_job_overflow.py:359-366 | the claim of a run audits what it recovers with the 600 second threshold, and a non-positive limit recovers nothing |
| Migration.ExitZeroMeansEqual | scripts/migrate_object_store.py:525-594 | for any starting destination, checkpoint and failing calls, with a stable source, exit 0 implies that the destination equals the source in keys and bytes |
| Migration.ExitZeroIff | scripts/migrate_object_store.py:474-594 | exactly when a run exits with 0: all listings work, the checkpoint loads, no reference is missing, the key sets agree, and each key's bytes have the digest that the key names, are read back and are confirmed or copied; the digest test is written out |
| Migration.CorruptObjectStopsAtSource | scripts/migrate_object_store.py:371-388 | an object whose bytes do not have the digest that its key names is never placed, and the run does not exit 0 |
| Migration.IntactBucketIsCopied | scripts/migrate_object_store.py:348-466 | with calls that all work, an empty destination, a checkpoint that loads and every digest absent or matching, the run exits 0 with the destination equal to the source |
| Migration.FailureReason | scripts/migrate_object_store.py:348-466 | which of the failures a key meets first |
| Migration.CheckpointIrrelevantIff | scripts/migrate_object_store.py:265-291 | exactly when two checkpoint files give the same destination, failing keys, bytes copied and exit code: the run stops before the load, or both files load, or neither does, or there is nothing to copy, nothing fails and the final checks do not pass |
| Migration.CheckpointIrrelevant | scripts/migrate_object_store.py:265-303 | for two files that both load (or both do not) all of that agrees, and only the split inside the two pairs of counters moves |
| Migration.RaisingLineStopsRun | scripts/migrate_object_store.py:281-289 | a checkpoint of one line that is JSON but no object makes a run fail with nothing copied that succeeds with an empty checkpoint |
| Migration.CrashThenResume | scripts/migrate_object_store.py:348-466 | after a crash at any key, with any failing calls before it and any checkpoint left that loads, a rerun reaches the destination, the failing keys and the exit code of one uninterrupted run |
| Migration.CrashLeavesResumable | scripts/migrate_object_store.py:294-303 | what a crash leaves of a checkpoint that loaded does load, also when it fell into the middle of a line |
| Migration.DestinationNeverOverwritten | scripts/migrate_object_store.py:396-436 | no object that the destination already holds is changed or removed by any pass |
| Migration.CountersAddUp | scripts/migrate_object_store.py:312-333 | the four outcome counters and failure_count add up to the number of keys |
| Migration.CheckpointDecidesSplit | scripts/migrate_object_store.py:405-466 | key by key, a confirmed key counts as verified exactly when it is recorded and as identical otherwise, a copied one as remigrated or as migrated; all four counters are given for any mixed set of recorded keys |
| Migration.MigrateKeyRecords | scripts/migrate_object_store.py:294-303 | a key that fails leaves the checkpoint as it is; one that succeeds becomes recorded and all others stay so, except that a last line without newline is lost together with the new one |
| Migration.PassDestination | scripts/migrate_object_store.py:525-537 | after a pass the destination holds its old objects unchanged plus exactly the keys whose PUT took effect, with the source's bytes |
| Migration.PassTally | scripts/migrate_object_store.py:348-466 | every counter and the list of failing keys of a pass, told from the starting destination alone |
| Migration.MigrateKeyEffect | scripts/migrate_object_store.py:348-466 | one key changes no entry but its own, and its fate depends on that entry and its own calls alone |
| Migration.CompleteListing | scripts/migrate_object_store.py:206-223 | for any page boundaries a complete listing yields exactly the bucket's keys |
| Migration.ListedIff | scripts/migrate_object_store.py:206-223 | a key is listed exactly when it is on a page before which every page was truncated and carried a token |
| Migration.ListAllKeys | scripts/migrate_object_store.py:206-223 | collects the keys of all pages up to the first that is not continued |
| Checkpoint.LoadCheckpoint | scripts/migrate_object_store.py:265-291 | yields exactly the recorded keys, skipping blank, torn and keyless lines, or stops at the first line on which reading the key raises |
| Checkpoint.AppendRecords | scripts/migrate_object_store.py:294-303 | exactly what an append adds to the recorded keys and what it costs when the last line has no newline |
| Checkpoint.CrashLeavesReadable | scripts/reprocess_evidence_classification.py:399-404 | a crash in the middle of an append never makes a readable checkpoint unreadable |
| Migration.MigrationRun.constructor | scripts/migrate_object_store.py:312-333 | a run starts with zero counters |
| Migration.MigrationRun.Migrate | scripts/migrate_object_store.py:348-466 | destination, checkpoint and counters after one key, on every failing and succeeding path |
| Migration.MigrationRun.MigrateKeys | scripts/migrate_object_store.py:525-537 | the pass over all keys |
| Migration.MigrationRun.Reconcile | scripts/migrate_object_store.py:539-594 | the exit code from the two final listings and the failure count |
| Migration.MigrationRun.Run | scripts/migrate_object_store.py:474-594 | a whole run and its exit code, stopping before any copy when a reference is missing from the source |
| Backup.BackupThenRestore | ops/restore_objects.py:40-69 | a backup into an empty directory that exits 0, restored into an empty bucket, reproduces the bucket exactly, for any pages and any order of files, if and only if no key has an empty or `.` component |
| Backup.ExitZeroIff | ops/backup_objects.py:51-90 | a backup into an empty directory exits 0 exactly when no key names the directory itself, no path is a proper prefix of another and every listed object has the hash that its key encodes |
| Backup.DoubledSlashIsLost | ops/backup_objects.py:60-81 | a concrete bucket with keys a/b and a//b that both scripts process with success and that does not come back |
| Backup.CompletesIff | ops/backup_objects.py:78-80 | a backup completes exactly when no key names the directory itself, no key's path is a proper prefix of another's and none crosses a file already there, in whatever order they are listed |
| Backup.CompletedBackup | ops/backup_objects.py:60-82 | a completed backup holds exactly one file per key path, with the bytes of such a key, and counts every listed key |
| Backup.FlagsEveryCorruptKey | ops/backup_objects.py:65-76 | the corrupt list names exactly the listed objects whose bytes disagree with the hash in their key, and they are backed up all the same |
| Backup.RestoreStopsAtCorrupt | ops/restore_objects.py:49-64 | a restore stops at the first file, in its order, whose bytes do not have the hash that its key encodes, and finishes exactly when there is none |
| Backup.RestoreWritesEarlierFiles | ops/restore_objects.py:49-66 | only files before the stop are written, with their bytes; every other object of the bucket is left alone |
| Backup.PlainIffReturns | ops/backup_objects.py:78-78 | exactly the keys without an empty or `.` component come back unchanged from key to path to key |
| Backup.SplitJoin | ops/restore_objects.py:50-50 | a file path and the key made of it determine each other |
| Backup.PageThenRest | ops/backup_objects.py:58-61 | page boundaries do not matter |
| Backup.Directory.Write | ops/backup_objects.py:78-80 | a write raises exactly when an ancestor is a file or the path is a directory, and otherwise sets that one file |
| Backup.BackupPage | ops/backup_objects.py:60-82 | files, count and corrupt list after one page, stopping where a write raises |
| Backup.BackupBucket | ops/backup_objects.py:51-90 | the whole backup and its exit code, over any pages |
| Backup.Restore | ops/restore_objects.py:40-69 | bucket, count and the refused key after a restore |
| Reprocess.ManifestsAgreeIff | scripts/reprocess_evidence_classification.py:226-314 | the dry-run manifest over one listing and the one that apply recomputes over a later listing are equal exactly when every matching item was listed and unclassified at the dry run if and only if at the apply it is listed and unclassified or classified by this rule |
| Reprocess.SameMomentAgreesIff | scripts/reprocess_evidence_classification.py:282-290 | at one moment the two manifests agree exactly when no matching item is already classified by the rule |
| Reprocess.ProgressKeepsManifest | scripts/reprocess_evidence_classification.py:282-314 | the apply-time manifest is the same after any progress that the rule itself has made |
| Reprocess.ReplayPassesGate | scripts/reprocess_evidence_classification.py:451-477 | a replay passes the manifest gate after any own progress since a dry run that found no item of the rule |
| Reprocess.ChangedCandidatesStopTheRun | scripts/reprocess_evidence_classification.py:459-477 | whenever the standing of some item makes the manifests differ, the run stops before any write, provided the two digests do not collide |
| Reprocess.ClaimedCandidateStopsTheRun | scripts/reprocess_evidence_classification.py:459-477 | in particular a candidate that another producer claimed since the dry run stops the apply with nothing written |
| Reprocess.NewEvidenceStopsTheRun | scripts/reprocess_evidence_classification.py:459-477 | a matching, unclassified item that arrived since the dry run stops the apply with nothing written |
| Reprocess.CrashThenRerun | scripts/reprocess_evidence_classification.py:443-601 | after a crash behind any number of accepted items the rerun, if the checkpoint left loads, passes the gate, writes nothing for finished items, audits the others, and ends with the classifications and exit code of an apply that never crashed; if it does not load, nothing is written |
| Reprocess.EventLostIff | services/evidence/classification_service.py:178-242 | classification and audit event are two writes: after crash and rerun, an item that the two runs classified has its event in the log if and only if the crash did not fall between its two writes |
| Reprocess.CrashLeavesResumable | scripts/reprocess_evidence_classification.py:399-404 | what a crash leaves of a checkpoint that loaded does load |
| Reprocess.CheckpointIrrelevantIff | scripts/reprocess_evidence_classification.py:376-396 | exactly when two checkpoint files give the same classifications, audit log and exit code of an undisturbed apply: it ends before the load, or both files load, or neither does, or the apply would write nothing and fail anyway |
| Reprocess.FinishedItemsWriteNothing | scripts/reprocess_evidence_classification.py:492-531 | items that the rule already classified are submitted again and change neither classifications nor audit log |
| Reprocess.ExitZeroMeansClassified | scripts/reprocess_evidence_classification.py:567-601 | whatever other producers do between the items, exit 0 means that the rule is active, the hash matches and the first m candidates carry this rule's deterministic classification and document type, m being what `[:limit]` keeps |
| Reprocess.ExitZeroIff | scripts/reprocess_evidence_classification.py:443-601 | an undisturbed apply exits 0 exactly when the rule is active, the hash matches, the checkpoint loads and, for each of the first m candidates, the matcher names this rule alone and the document type is the rule's |
| Reprocess.LimitIsRespected | scripts/reprocess_evidence_classification.py:481-531 | no undisturbed apply, however it ends, classifies or audits an unclassified item beyond the first m candidates |
| Reprocess.ReportCountsLimit | scripts/reprocess_evidence_classification.py:481-601 | the report says m planned and the other candidates beyond the limit |
| Reprocess.ExitZeroWindow | scripts/reprocess_evidence_classification.py:567-601 | after an undisturbed exit 0 exactly the first m candidates, and those classified before, carry the rule |
| Reprocess.RunKeepsClassified | scripts/reprocess_evidence_classification.py:418-601 | an undisturbed run leaves every existing classification alone |
| Reprocess.PassClaims | scripts/reprocess_evidence_classification.py:492-531 | a pass that does not stop leaves every planned item with this rule, supersedes nothing and touches no other item |
| Reprocess.PassReaches | scripts/reprocess_evidence_classification.py:492-545 | an undisturbed pass gets to its end exactly when every planned item resolves to this rule |
| Reprocess.PassAuditsWrites | scripts/reprocess_evidence_classification.py:492-531 | an undisturbed pass, stopped or not, audits every item that it classifies exactly once and no other |
| Reprocess.PassCounts | scripts/reprocess_evidence_classification.py:509-526 | the two counters of a pass that does not stop are one per audit event and together one per item |
| Reprocess.PassRecords | scripts/reprocess_evidence_classification.py:515-524 | a pass that does not stop records every item, in a checkpoint that stays readable; only behind a last line without newline is the first new line lost with it |
| Reprocess.PassDependsOnCurrent | scripts/reprocess_evidence_classification.py:487-531 | the outcome of a pass depends on the classifications alone, not on the checkpoint, the counters or where it starts |
| Reprocess.CandidatesAreSorted | scripts/reprocess_evidence_classification.py:267-292 | the candidates are exactly the matching items that are unclassified or (at apply) classified by this rule deterministically, earlier arrivals first and equal ones by id |
| Reprocess.ManifestAt | scripts/reprocess_evidence_classification.py:317-345 | each manifest line carries its candidate's fields with the rule's id and document type |
| Reprocess.ListAllEvidence | scripts/reprocess_evidence_classification.py:204-223 | paging reaches the whole listing for every positive page size, and nothing for page size zero |
| Reprocess.Reprocessor.constructor | scripts/reprocess_evidence_classification.py:418-443 | the repositories and the checkpoint file that a run starts from |
| Reprocess.Reprocessor.ScanCandidates | scripts/reprocess_evidence_classification.py:226-314 | the sorted candidates and the matching and classified counts of one scan |
| Reprocess.Reprocessor.ClassifyDeterministically | services/evidence/classification_service.py:105-275 | writes a classification and one audit event exactly when the matcher names one rule and the item is unclassified; every other outcome writes nothing |
| Reprocess.Reprocessor.ApplyCandidates | scripts/reprocess_evidence_classification.py:487-545 | classifications, audit log, checkpoint and counters after the loop, which stops at the first outcome that is not this rule's |
| Reprocess.Reprocessor.Revalidate | scripts/reprocess_evidence_classification.py:567-580 | lists exactly the planned items that do not carry this rule and document type |
| Reprocess.Reprocessor.Apply | scripts/reprocess_evidence_classification.py:418-601 | a whole apply and its report |
| Composition.RunKeepsInv | app/api/composition.py:1066-1091 | the invariant of locks, memo, rows and call positions holds after any interleaving of any number of threads with calls that raise anywhere |
| Composition.AtMostOneRow | app/api/composition.py:1157-1189 | in any run at most one row is created per well-known source, mailbox source or seed entity, none when an earlier process left one, and at most one composition is ever built with success |
| Composition.CallersAgree | app/api/composition.py:1311-1390 | all callers that return get the same value for the same slot, and it names existing rows: for the seeds all three, each with its accounting configuration |
| Composition.RaisingLeavesNoTrace | app/api/composition.py:1066-1091 | a step that raises returns and publishes nothing and leaves the memo unset, and the next step frees the lock, so a failed composition is never published |
| Composition.CallReturns | app/api/composition.py:1157-1189 | progress: a call inside its critical section whose own outcomes succeed has returned after at most 9 of its own steps (5 for a single row), however the others interleave and raise, with configured rows for all its names, each created by this process exactly once unless an earlier one left it |
| Composition.FirstCallReturns | app/api/composition.py:1311-1390 | from a cold start the first caller registers what is missing and returns, whatever other threads do after it took the lock |
| Composition.WholeMeans | app/api/composition.py:1275-1310 | what a returned value names, slot by slot: one configured row, or for the seeds INFOSECURS_LIMITED, NOUSTAI_LIMITED and MATTHEW_SCOTT_PERSONAL in this order |
| Composition.OnlyOwnFailuresRaise | app/api/composition.py:1066-1091 | in any run a call raises only if one of its own calls did not succeed |
| Composition.RaisesIff | app/api/composition.py:1169-1189 | a step starts to raise exactly when it builds, looks up, completes or creates and that does not succeed; what raised before its effect left no row |
| Composition.CreationAddsRow | app/api/composition.py:1177-1189 | a creation that raises after its effect has added its one row all the same |
| Composition.ResolvedSlotNeedsNoLock | app/api/composition.py:1165-1168 | once resolved, a slot is answered in one step even while its lock is held |
| Composition.FreeLockLetsIn | app/api/composition.py:1416-1451 | a waiting call gets in at once when its own lock is free, the mailbox lock for mailbox sources and the main lock for all else |
| Composition.RowsStayDistinct | app/api/composition.py:1311-1390 | in any run all rows keep distinct identifiers, so the three seed entities never share one |
| Composition.MemoIsForEver | app/api/composition.py:1416-1451 | a published value never changes, and no second composition is built after it |
| Composition.LockIsReleased | app/api/composition.py:1169-1189 | a thread that holds a lock never waits: however the threads interleave, it frees the lock within a stated number of its own steps |
| Composition.StepSpendsBudget | app/api/composition.py:1321-1390 | every step inside the critical section, raising or not, lowers the remaining step budget, and leaving it frees the lock |
| Composition.NextKeepsInv | app/api/composition.py:1066-1451 | one step of one thread keeps the invariant |
| Composition.ColdInv | app/api/composition.py:1062-1063 | a cold process satisfies the invariant, whatever rows earlier processes left |
| HttpHeaders.HeaderRoundTrip | app/api/http_headers.py:89-126 | reading the header by section 4 of RFC 6266 and section 3.2 of RFC 5987 gives back the disposition, the separator-free fallback and exactly the original filename, for every filename of Unicode scalar values; the extended parameter is there exactly for a filename that is not empty |
| HttpHeaders.HeaderIsPrintable | app/api/http_headers.py:89-126 | every character of the header is printable ASCII, whatever the filename |
| HttpHeaders.FallbackIsSeparatorFree | app/api/http_headers.py:36-86 | slash, backslash and quote never occur in the fallback; it holds exactly the filename's other characters from 0x20 to 0x7E, and is the filename itself exactly when it has no others |
| HttpHeaders.FallbackKeepsOrder | app/api/http_headers.py:62-86 | each character is kept or dropped on its own, in its place and as often as it occurs |
| HttpHeaders.AsciiFallback | app/api/http_headers.py:62-86 | the loop with its four separate tests computes that filter |
| HttpHeaders.Utf8RoundTrip | app/api/http_headers.py:125-126 | strict UTF-8 decoding inverts the encoding that `quote` applies |
| HttpHeaders.PercentRoundTrip | app/api/http_headers.py:125-126 | percent-decoding by RFC 5987 inverts the quoting of any byte string |
| HttpHeaders.QuotedByte | app/api/http_headers.py:125-126 | letters, digits and `_.-~` stand for themselves, every other byte is a percent sign and two upper-case digits |
| Evaluation.PercentileMonotone | scripts/evaluate_document_classifier.py:648-657 | percentiles are monotone in pct, and a change of pct changes the value by at most the spread of the data times the change of pct * (n - 1), so there is no jump anywhere |
| Evaluation.PercentileOnSegment | scripts/evaluate_document_classifier.py:648-657 | the value at rank pct * (n - 1) divides the step between its two neighbouring elements in proportion, on both sides of a rank boundary |
| Evaluation.MedianIsPercentile | scripts/evaluate_document_classifier.py:660-670 | the percentile at 0.5 is the middle element, or the mean of the two middle ones |
| Evaluation.PercentileEnds | scripts/evaluate_document_classifier.py:648-657 | the percentiles at 0 and 1 are the minimum and the maximum |
| Evaluation.StatsAreOrdered | scripts/evaluate_document_classifier.py:660-670 | for the latencies in ascending order: count, least, median and greatest value as they stand there, with min <= median <= p95 <= max |
| Evaluation.P95IsInterpolated | scripts/evaluate_document_classifier.py:648-670 | the p95 figure lies at rank 0.95 * (n - 1) of the ordered latencies, in proportion between its neighbours |
| Evaluation.TablesAddUp | scripts/evaluate_document_classifier.py:766-778 | the per-type totals, correct and incorrect counts add up to the overall ones, and the confusion counts add up to the overall incorrect count |
| Evaluation.TablesCount | scripts/evaluate_document_classifier.py:766-778 | each type's total and correct count are those of the judged items of that type, and each `expected->actual` key counts its misjudged items; no other keys exist |
| Evaluation.FigureCounts | scripts/evaluate_document_classifier.py:716-778 | any figure of the report that every item raises by one or leaves alone counts exactly the items that raise it |
| Evaluation.BucketsPartition | scripts/evaluate_document_classifier.py:724-764 | every item of a named bucket is counted in exactly one bucket |
| Evaluation.BlockedOncePerFinding | scripts/evaluate_document_classifier.py:724-756 | the blocking findings are exactly the wrong deterministic answers and the conflicts, in order |
| Evaluation.ListsNameItems | scripts/evaluate_document_classifier.py:745-764 | the lists of failures, schema failures, unsupported and running items name exactly the items of their bucket, in order |
| Evaluation.ScoresCount | scripts/evaluate_document_classifier.py:724-744 | the deterministic and the AI score count their own items, right and wrong ones apart |
| Evaluation.FiguresCount | scripts/evaluate_document_classifier.py:716-756 | so do the conflicts, the review and unclassifiable proposals, the other source and the new and reused invocations |
| Evaluation.AccuracyIsShare | scripts/evaluate_document_classifier.py:766-780 | the accuracy is the share of right answers among the judged items, and none when nothing was judged |
| Evaluation.TotalCountsJudged | scripts/evaluate_document_classifier.py:766-770 | the overall total counts exactly the judged items |
| Evaluation.BuildReport | scripts/evaluate_document_classifier.py:673-836 | the one-pass loop computes that report, its latency statistics and its accuracy |

## Left out

- Identity.GeneratedStrictlyIncrease: needs the later timestamp below 2^48; `Identity.NextSortsAfterIff` gives the exact condition. Clock readings before 1970 are not modelled.
- Composition.AtMostOneRow: within one process only, as the source itself says; two processes that start cold at once can each create a row. The four functions are modelled as atomic thread steps with explicit locks rather than as class methods, because the property is about interleavings; `reset_composition_for_tests` and unlocked re-reads of a memo after the fast path are not modelled.
- Composition.CallReturns: starts where the call has its lock; `Composition.LockIsReleased` and `Composition.FreeLockLetsIn` bound the wait for it, but which waiting thread the operating system lets in next is not modelled.
- Backup.BackupThenRestore: covers keys that stay inside the directory; absolute keys, `..` components and NUL characters, file name length limits and case-insensitive file systems are not modelled.
- Migration.CrashThenResume: the checkpoint append itself does not raise; `sorted(...)` is any enumeration of the keys.
- Reprocess.ChangedCandidatesStopTheRun: the digest is an arbitrary function that does not collide on the two manifests at hand; negative page sizes and a rule id that does not exist (an error before any scan) are not modelled.
- Reprocess.CrashThenRerun: assumes that no other producer writes and that no evidence arrives meanwhile; interference is covered by `Reprocess.ExitZeroMeansClassified` and the gate lemmas.
- Evaluation.PercentileMonotone: over exact reals; floating-point rounding is not modelled. `Times` is the product under a name of its own.
- Evaluation.BuildReport: the text of findings and failure records, run metadata and the echoed items are not modelled; whether an error code contains SCHEMA is part of the item.
- Lifecycle.BackgroundReturns: event payloads are abbreviated, a missing correlation id is taken as already generated, and prompt, context and provider wording are not modelled, and a prompt asset that exists is readable; JSON Schema validation is a boolean verdict per row.
- Fleet.AgreementInEveryRun: the audit log is not part of a fleet's state; the chains of events are the subject of `Lifecycle.BackgroundReturns`.
- Worker.RunOverflow: the per-outcome counts of the report and the submit mode beyond its idempotency key are not modelled; the text of `last_error` is abbreviated.
- Jobs.BackgroundJobRepository.MarkInProgress: the source does not check which worker calls it, so nothing is claimed about mutual exclusion after a stale recovery.
- Invocations.InvocationRepository.TransitionStatus: callers do not pass identity fields among the updated fields, although the source does not forbid it; with one passed, the subject index could name a row of another subject. Resetting an outcome field to None is not modelled.
- Audit.AuditLog.ListRecent: the default limit and negative limits follow Python slicing; text encodings of timestamps are not modelled.
- Identifiers are ranks in generation order (`Common.Id`), justified by `Identity.GeneratedStrictlyIncrease`; a dictionary keyed by fresh identifiers is a sequence. Times are integer microseconds, and one repository call reads the clock once.
- The PostgreSQL repositories, S3, HTTP, subprocess and LiteLLM clients: calls into other systems, here nondeterministic results.
- SHA-256, the rule matcher and the parsing of canonical keys: function parameters about which nothing is assumed.
- `list_jobs`, `list_invocations`, their filters, and entity, source and provenance repositories: single-map lookups that would only add easy members.
- Migrations, task and prompt registries, command-line parsing, report files and web plumbing: data or finite tables.
