# Code-Arena: a verified model of submission judging

This project models how Code-Arena takes a submission from the API through the queue
and the workers to a stored verdict, and proves what that machinery guarantees when
workers crash, stall, retry and overlap. Verify it with `dafny verify dfyconfig.toml`.

| file | what it models |
|---|---|
| `Prelude.dfy` | verdicts, the schema's verdict enum, optional values |
| `OutputEvaluator.dfy` | the output normaliser: the pipeline of text passes, a specification by lines, a single pass |
| `Sandbox.dfy` | the stream handlers and `close` handlers of the two runners |
| `Executor.dfy` | one test case in the engine, its workspace, and the adapter that turns engine errors into worker errors |
| `Judge.dfy` | the loop over the tests against a declarative verdict; order of tests; ACCEPTED from end to end |
| `Protocol.dfy` | the step machine: one document, one job, the creating request, any number of attempts, a clock; four regimes of runs |
| `Safety.dfy` | what every step keeps; results, mutual exclusion, terminal states, what FAILED means |
| `Runtimes.dfy` | which runtime a submission stores, over whole runs |
| `Lease.dfy` | how often a submission can be claimed |
| `Delivery.dfy` | crash-free runs, and runs that recover from crashes: nothing lost, every submission ends |
| `Limits.dfy` | runs that show why each assumption is needed |
| `Worker.dfy` | `processSubmission` and `executeSubmission` in place, among other workers that may do anything: shown to be runs of the step machine, and proved against a function |
| `SubmissionService.dfy` | `enqueueSubmission` and `createSubmission` in place |
| `Metrics.dfy` | paired counters and cumulative histograms |
| `WorkerRegistry.dfy` | the registry of workers with expiring keys; reads and writes of different callers overlap |
| `Readiness.dfy` | problem readiness, one at a time and batched |

## How the protocol is modelled

`Protocol.World` holds the document, the job, the request that creates the submission,
every worker attempt with its program counter, the clock, and a history of claims. A step
is one atomic database operation, one test, one queue action, or the passing of time. A
claim computes its cutoff at one instant (`issued`), reads the clock twice more for its two
stamps, and takes effect later still. `save` writes the fields whose value differs from the
loaded copy. Every database operation of an attempt, and each of the three writes of the
creating request, may fail without effect; every attempt may crash at any point, also
between its last update and its return; and a job may be delivered again at any time with
any attempt number (`Redeliver`).

Four regimes of runs are used:

* *Free*: every run, late workers included.
* *Timely*: no attempt makes a write that is not tied to its ownership (mark RUNNING,
  final save, catch-block update) later than `staleTimeoutMs` after its stamp. Late reads,
  late claims and late test executions are allowed.
* *Crash-free*: every attempt returns or throws, and the queue delivers a job once per
  attempt. Database failures are still allowed.
* *Recovering*: attempts may crash, too; the queue delivers a job again only after the crash
  of the attempt that held it, with the same attempt number, and, if the submission is
  RUNNING, more than `staleTimeoutMs` after its last stamp.

Assumptions of all four: each database operation either happens or does not, the tests and
the verdict of each test are fixed (runtimes are not), and a failing enqueue adds no job.

## What comes out

* In every run, late workers included, a submission that is COMPLETED or shows any verdict
  stores the verdict and the counts of the sequential judge, and a verdict once stored never
  changes (`CompletedMeansJudged`, `VerdictIsFinal`). Only the *status* depends on timing.
  Its runtime is the sum over all tests of one attempt that saved its result
  (`StoredRuntimeIsOneAttempts`).
* In timely runs at most one attempt works within its lease, terminal states absorb, and
  FAILED means one of four things: the enqueue failed, an error that no retry can help, an
  error on the last attempt, or a stamp lost on the last attempt (`FailedMeansGivenUp`; the
  same reasons are necessary in every run).
* A crash-free or recovering run loses its submission if and only if it takes one of three
  named steps, and ends within a bounded number of steps per delivery.
* The number of claims in a time L since queueing, with r releases, is at most
  1 + r + (L + backslide) / `staleTimeoutMs` in every run, where the backslide is the time by
  which the stamps of successive claims go back (`ClaimBound`). Only a claim from QUEUED
  after the first can make them go back, by no more than the delay between its stamp and its
  effect (`ClaimBoundWithDelay`). So 1 + r + L / `staleTimeoutMs` holds when no such claim is
  stamped before the claim that it follows, and in every run without a release
  (`ClaimBoundInOrder`).

Places where the code does not do what one would like, each with a concrete run or an exact
condition:

* The bound of 1 + r + L / `staleTimeoutMs` claims fails as soon as r is not 0: for every
  r > 0 and every `staleTimeoutMs` > 1 some run, even a timely one, has 3 + r claims where
  the bound allows 2 + r, as soon as the job has two attempts (`FourClaims`, `BoundHoldsIffNoRelease`). A requeued submission
  can be claimed with a stamp that was read long ago, and then be taken over at once.
* If the `completedAt` stamp of the last attempt fails, the catch block marks an already
  COMPLETED submission FAILED while its verdict stays, ACCEPTED included
  (`LostStampFailsAnAcceptedSubmission`, with the three attempts of the queue; exact
  condition: `TerminalChangesIffStampLost`, `VerdictMeansCompletedIffNoStampLost`).
* A worker that outlives its lease can put a COMPLETED submission back to RUNNING
  (`LateWorkerReopens`; exact condition: `TerminalStatusLeftIff`).
* A late worker's final save does not store the runtime of its own tests when that equals the
  runtime it had loaded and another worker has stored a different one since: a save leaves
  out the fields that were not edited (`LateSaveKeepsAnotherRuntime`; exact condition, and
  why it cannot happen in timely runs: `FinishStoresTheTotal`).
* If the release after a failed attempt does not reach the database, the retry skips the
  fresh RUNNING submission and acknowledges the job (`FailedReleaseStrands`; exact
  condition: `LostIffStranded`). The same skip follows a redelivery that comes too early
  after a crash (`EarlyRedeliveryStrands`; exact condition: `RecoveryNeedsAStaleLease`).
* A submission with a compilation error is never counted by verdict or duration, because
  `executeSubmission` returns nothing on that path and on no other
  (`ReturnsNothingIffCompilationError`, `CompilationErrorsAreNotCounted`).
* A request with a `|` in its route is exported under wrong labels (`LabelsSurviveIffNoBar`),
  and two series are exported under the same labels if and only if their methods agree and
  their routes agree up to the first bar (`SameLabelsIff`).
* The visible status of a worker goes back if and only if one of its heartbeats is stale: the
  worker has asked for another status between the heartbeat's `get` and its `set`, or its
  record had expired and it is no longer READY (`VisibleStatusNeverGoesBack`; logs:
  `LateBeatGoesBack`, `OverlappingBeatGoesBack`).
* A workspace is left behind if its permissions cannot be set (`Workspaces.Run`).
* The readiness that `createProblem` reports names one missing requirement where the later
  reports name three (`NewProblemReportDiffers`).

Where code and documentation differ, the model follows the code: the repository's
`README.md:51` and the comment at `backend/src/workers/submission.worker.js:91` say that an
active execution cannot be taken over, but a claim is tied to the age of the stamp alone, and
the lease is not renewed while tests are executed; `execution-engine/README.md` promises the
removal of the workspace in every case; the comment of `normalizeOutput` names CRLF only,
while the code also turns a lone CR into a line break.

## Model

| member | source | states |
|---|---|---|
| OutputEvaluator.SplitYieldsLines | execution-engine/src/evaluator/output.evaluator.js:22-25 | after both replacements, splitting at LF gives the lines of the text, with CRLF, a lone CR and LF as one break each |
| OutputEvaluator.NormalizeJoinsCanonicalLines | execution-engine/src/evaluator/output.evaluator.js:17-29 | the pipeline yields the right-trimmed lines without trailing empty ones, joined by LF; a non-string counts as empty |
| OutputEvaluator.MatchIffSameLines | execution-engine/src/evaluator/output.evaluator.js:38-50 | two outputs are judged equal if and only if their canonical lines are equal, and the verdict is ACCEPTED or WRONG_ANSWER |
| OutputEvaluator.NormalizeIdempotent | execution-engine/src/evaluator/output.evaluator.js:17-29 | normalising twice is normalising once, and a text matches its own normal form |
| OutputEvaluator.PipelineIsOnePass | execution-engine/src/evaluator/output.evaluator.js:22-28 | the six passes equal one left-to-right pass that buffers breaks and blanks |
| OutputEvaluator.NormalizeKeepsVisible | execution-engine/src/evaluator/output.evaluator.js:17-29 | normalising removes white space and nothing else |
| OutputEvaluator.TrailingCharacterIgnoredIff | execution-engine/src/evaluator/output.evaluator.js:26-28 | one more character at the end of an output makes no difference if and only if it is one of the white-space characters of the language |
| OutputEvaluator.EveryBreakEndsALine | execution-engine/src/evaluator/output.evaluator.js:22-25 | CRLF, a lone CR and a lone LF each separate the lines before from the lines after |
| Sandbox.ReplayMeans | execution-engine/src/runner/docker.sandbox.js:132-170 | after any events the buffers hold all output, and the limit flag is set exactly when the total length has reached the limit |
| Sandbox.ComparedOutputIsComplete | execution-engine/src/runner/docker.sandbox.js:186-195 | truncation changes no result that is not flagged over the limit |
| Sandbox.CloseMeans | execution-engine/src/runner/docker.sandbox.js:186-221 | what both runners report of exit, signal, runtime, timer, the total length of the output, and the beginning of each stream |
| Sandbox.ResourceFlagsMean | execution-engine/src/runner/docker.sandbox.js:197-207 | the memory flag means code 137 without a kill by the engine, or one of four messages anywhere in the shown stderr; the process flag likewise; the local runner sets neither |
| Sandbox.SuccessMeans | execution-engine/src/runner/docker.sandbox.js:197-209 | success of either runner, in terms of exit code, signal, timer, total output and memory messages |
| Sandbox.InterleavingIrrelevant | execution-engine/src/runner/docker.sandbox.js:152-222 | results depend on neither the chunking nor the interleaving of the streams |
| Sandbox.ProcessWatch.OnStdout | execution-engine/src/runner/docker.sandbox.js:153-160 | the handler keeps buffers and flags equal to the replay of all events so far |
| Sandbox.ProcessWatch.OnStderr | execution-engine/src/runner/docker.sandbox.js:163-170 | the same for the other stream |
| Sandbox.ProcessWatch.OnTimer | execution-engine/src/runner/docker.sandbox.js:132-136 | the same for the timer |
| Sandbox.ProcessWatch.OnDockerClose | execution-engine/src/runner/docker.sandbox.js:178-222 | the result is the classification of the replayed events, and flags the memory limit for a message anywhere in the text |
| Sandbox.ProcessWatch.OnProcessClose | execution-engine/src/runner/process.runner.js:115-142 | the same for the local runner, which detects no memory limit |
| Executor.VerdictsOfCleanRuns | execution-engine/src/executor/execution.service.js:62-202 | ACCEPTED and WRONG_ANSWER exactly for clean runs with the right and the wrong lines |
| Executor.VerdictsOfUncleanRuns | execution-engine/src/executor/execution.service.js:144-190 | the precedence of time, memory, output and runtime verdicts |
| Executor.MemoryLimitMeans | execution-engine/src/executor/execution.service.js:144-164 | MEMORY_LIMIT_EXCEEDED exactly for a sandboxed program, in time, with code 137 below the output limit or a message about memory anywhere in its stderr |
| Executor.ErrorsMean | execution-engine/src/executor/execution.service.js:23-90 | which request or host ends in which error, in order |
| Executor.CompilationErrorMeans | execution-engine/src/executor/execution.service.js:90-122 | COMPILATION_ERROR exactly when a C++ compiler ran and did not end cleanly |
| Executor.RuntimeIsMissingOnlyForCompilationErrors | execution-engine/src/executor/execution.service.js:113-202 | an answer lacks a runtime if and only if it is COMPILATION_ERROR, has the runtime of the program otherwise, and is never PENDING |
| Executor.Workspaces.Run | execution-engine/src/executor/execution.service.js:62-209 | `execute` with its cleanup: the exact cases in which a directory outlives the call |
| ExecutionAdapter.OnlyInvalidRequestsAreFinal | backend/src/modules/submissions/execution.adapter.js:27-50 | a test ends the submission without retry exactly when the engine rejects the request as invalid; an answer of the engine is passed on as it is |
| ExecutionAdapter.ApplicationErrorsAreSorted | backend/src/workers/submission.worker.js:77-86 | exactly which errors are final; those of the database are not |
| Judge.RunTests | backend/src/modules/submissions/submission-execution.service.js:75-153 | the loop with its early exits computes the declarative judgement and runs no test after the one that stops it |
| Judge.JudgementIsCalledFor | backend/src/modules/submissions/submission-execution.service.js:79-153 | that judgement, for any results: the verdict of the test that stops the loop, or of all together, the accepted tests before it, and the sum of the runtimes up to it |
| Judge.StoppingTestDecides | backend/src/modules/submissions/submission-execution.service.js:96-136 | a compilation error, time limit, memory limit or runtime error is stored under its own name, an output limit as RUNTIME_ERROR |
| Judge.NoStoppingTest | backend/src/modules/submissions/submission-execution.service.js:138-150 | without such a result: ACCEPTED if all tests were, else WRONG_ANSWER, with all runtimes |
| Judge.RaisingTestAborts | backend/src/modules/submissions/submission-execution.service.js:165-172 | the first test that raises ends the judgement with its error |
| Judge.TurnFollowsSpec | backend/src/modules/submissions/submission-execution.service.js:79-136 | one turn of the loop keeps its variables right or leaves with the right record |
| Judge.RightRecordIsConsistent | backend/src/modules/submissions/submission.model.js:35-61 | a judged record has tests, counts within bounds, ACCEPTED iff all passed, and a verdict inside the schema |
| Judge.AcceptedIgnoresOrder | backend/src/modules/submissions/submission-execution.service.js:42-45 | ACCEPTED does not depend on the order of the tests |
| Judge.RecordIgnoresOrder | backend/src/modules/submissions/submission-execution.service.js:79-150 | without a fatal result the whole record, runtime included, is the same in any order |
| Judge.OrderMattersIffFatalsDiffer | backend/src/modules/submissions/submission-execution.service.js:123-135 | the verdict depends on the order if and only if two fatal results are stored differently |
| Judge.AcceptedMeansEveryTestPasses | backend/src/modules/submissions/submission-execution.service.js:79-143 | a judgement is ACCEPTED if and only if every test passes on its host |
| Safety.RunKeepsBasics | backend/src/workers/submission.worker.js:156-182 | in every run the document carries the stamps of the last claim, and no attempt is stamped before the submission was queued |
| Safety.StampsAreTheLastClaims | backend/src/workers/submission.worker.js:156-182 | in every run `startedAt` and `execution.startedAt` are the two readings of the last claim, in that order, so the fallback of the filter is never taken |
| Safety.CompletedMeansJudged | backend/src/modules/submissions/submission-execution.service.js:74-164 | in every run a submission that is COMPLETED, or has any verdict but PENDING, stores the verdict and counts of the sequential judge, with consistent fields: the stopping test's own verdict, or that of all tests together |
| Safety.VerdictIsFinal | backend/src/modules/submissions/submission-execution.service.js:145-153 | in every run the verdict leaves PENDING at most once and then never changes, nor do the counts |
| Safety.TerminalStatusLeftIff | backend/src/workers/submission.worker.js:276-329 | in every run, exactly which steps take a submission out of a terminal status |
| Safety.MutualExclusion | backend/src/workers/submission.worker.js:147-182 | in timely runs at most one attempt is at work within its lease, and the document carries its stamp |
| Safety.TerminalChangesIffStampLost | backend/src/workers/submission.worker.js:241-245 | in timely runs a terminal document changes exactly when the stamp failed on the last attempt |
| Safety.TerminalAbsorbs | backend/src/workers/submission.worker.js:196-204 | in timely runs a terminal document stays as it is, but for one lost stamp |
| Safety.VerdictMeansCompletedIffNoStampLost | backend/src/modules/problems/problem.service.js:260-264 | a verdict is visible exactly on COMPLETED submissions, if and only if no step of the run lost a stamp; what the solved query then finds; any other document has no result fields |
| Safety.FailsIffFailed | backend/src/workers/submission.worker.js:276-337 | step by step, which steps make a submission FAILED, and that each of them does |
| Safety.FailedMeansGivenUp | backend/src/workers/submission.worker.js:276-337 | in every run FAILED comes from one of four named steps only; in timely runs it is the status if and only if one was taken |
| Safety.FinalErrorsAreDeserved | backend/src/workers/submission.worker.js:77-86 | in every run an attempt treats an error as final only if there are no active tests or one of its own tests raised such an error |
| Safety.ErrorsLeadTo | backend/src/workers/submission.worker.js:264-300 | which fault each failure puts an attempt into its catch block with |
| Safety.CatchBlockMeans | backend/src/workers/submission.worker.js:276-340 | the status and the end that the catch block leads to, for each fault and attempt number |
| Safety.JobFollowsAttempt | backend/src/queues/submission.queue.js:36-52 | the job is completed, delayed or failed as the attempt that holds it returns or throws |
| Runtimes.StoredRuntimeIsOneAttempts | backend/src/modules/submissions/submission-execution.service.js:91-153 | in every run the stored runtime is the sum over all tests of one attempt that saved its result, and missing exactly for a compilation error |
| Runtimes.FinishStoresTheTotal | backend/src/modules/submissions/submission-execution.service.js:145-153 | the final save stores the total that its attempt accumulated, in every timely run, and in any run exactly under the condition given |
| Safety.AcceptedEndToEnd | backend/src/modules/submissions/submission-execution.service.js:48-153 | in every run a COMPLETED submission is ACCEPTED if and only if it has tests and all of them pass on their hosts |
| Lease.ClaimsAreSpaced | backend/src/workers/submission.worker.js:154-182 | in every run a claim from RUNNING is issued more than `staleTimeoutMs` after the stamp of the claim before |
| Lease.ClaimBound | backend/src/workers/submission.worker.js:154-182 | in every run, with no further hypothesis: at most 1 + releases + (time + backslide of the stamps) / staleTimeoutMs claims |
| Lease.ClaimBoundWithDelay | backend/src/workers/submission.worker.js:154-182 | if claims from QUEUED after the first take effect within a delay: at most 1 + releases + (time + releases * delay) / staleTimeoutMs |
| Lease.ClaimBoundInOrder | backend/src/workers/submission.worker.js:304-309 | at most 1 + releases + time / staleTimeoutMs whenever nothing was released, or no requeued claim is stamped before the one it follows |
| Delivery.LostIffStranded | backend/src/workers/submission.worker.js:184-234 | a crash-free or recovering run loses its submission if and only if it takes a stranding step; otherwise an unfinished one still has its job |
| Delivery.CalmRunsLoseNothing | backend/src/workers/submission.worker.js:300-340 | nothing is lost when claims and catch blocks reach the database, crashes with late enough redeliveries included |
| Delivery.StepStrands | backend/src/queues/submission.queue.js:36-52 | worker and queue agree, step by step, on when retries are exhausted |
| Delivery.EverySubmissionEnds | backend/src/workers/submission.worker.js:300-340 | crash-free and recovering runs take boundedly many steps for each delivery and redelivery, and come to rest only with a terminal submission or after a stranding step |
| Limits.LateWorkerReopens | backend/src/modules/submissions/submission-execution.service.js:61-65 | a run in which a late worker takes a COMPLETED submission back to RUNNING |
| Limits.LateSaveKeepsAnotherRuntime | backend/src/modules/submissions/submission-execution.service.js:61-153 | a run with late workers whose last save does not store its own runtime |
| Limits.LostStampFailsAnAcceptedSubmission | backend/src/workers/submission.worker.js:317-329 | with three attempts, in any regime: a run that ends FAILED with verdict ACCEPTED |
| Limits.FailedReleaseStrands | backend/src/workers/submission.worker.js:304-309 | a crash-free run that loses its submission after a failed release |
| Limits.RecoveryNeedsAStaleLease | backend/src/workers/submission.worker.js:209-224 | a redelivery takes over a RUNNING submission exactly when its lease has gone stale, and strands it otherwise |
| Limits.EarlyRedeliveryStrands | backend/src/workers/submission.worker.js:209-224 | a run in which a redelivery right after a crash loses the submission |
| Limits.FourClaims | backend/src/workers/submission.worker.js:154-182 | for every lease a timely run with one release and four claims within one millisecond more than the lease |
| Limits.BoundHoldsIffNoRelease | backend/src/workers/submission.worker.js:304-309 | all runs with r releases have at most 1 + r + time / staleTimeoutMs claims if and only if r is 0 |
| Worker.SubmissionCollection.FindOneAndClaim | backend/src/workers/submission.worker.js:156-182 | the atomic claim, equal to the claim of the step machine |
| Worker.ExecuteSubmission | backend/src/modules/submissions/submission-execution.service.js:21-173 | whatever other workers do between its operations, it takes the planned steps of the machine and returns what its tests call for; its exact effect when nobody else is at work |
| Worker.SettleFailure | backend/src/workers/submission.worker.js:276-340 | the updates of the catch block: final failure, release or exhaustion, as the step machine has them, among other workers |
| Worker.HandleFailure | backend/src/workers/submission.worker.js:264-340 | the catch block with its metrics: one failed job more |
| Worker.Claim | backend/src/workers/submission.worker.js:147-234 | the claim of one delivery and its three outcomes |
| Worker.ProcessSubmission | backend/src/workers/submission.worker.js:103-342 | one delivery among other workers that may take any steps: a run of the machine with the planned own steps, an end as acknowledged or thrown, the metrics that go with it, and a recorded duration within the time it took; its exact effect when nobody else is at work |
| Worker.FollowingStaysReachable | backend/src/workers/submission.worker.js:103-342 | from a reachable state a delivery leads to a reachable state, so what holds of runs holds of the code |
| Worker.ReturnsNothingIffCompilationError | backend/src/modules/submissions/submission-execution.service.js:96-153 | `executeSubmission` returns no submission if and only if the sequential verdict is COMPILATION_ERROR |
| Worker.DeliveryStoresTheResult | backend/src/modules/submissions/submission-execution.service.js:145-153 | the whole document after a delivery without failures: stamps, verdict, counts, and the sum of the runtimes |
| Worker.DeliveryWithoutTestsFails | backend/src/modules/submissions/submission-execution.service.js:48-58 | without active tests the submission is FAILED at once and the job acknowledged |
| Worker.DeliveryWithAnErrorIsSettled | backend/src/workers/submission.worker.js:276-340 | what a test that raises leads to: FAILED and acknowledged, or QUEUED or FAILED and rethrown |
| Worker.JudgementIsRight | backend/src/modules/submissions/submission-execution.service.js:75-153 | a judgement without error is the one that the verdicts of the tests call for |
| Worker.UndisturbedDeliveryCompletes | backend/src/workers/submission.worker.js:236-245 | a delivery that meets no failure completes the submission with the sequential verdict |
| SubmissionService.SubmissionQueue.EnqueueSubmission | backend/src/queues/submission.queue.js:74-107 | one job per submission id at most, with three attempts; an existing job is left alone |
| SubmissionService.CreateRequest.CreateSubmission | backend/src/modules/submissions/submission.service.js:18-115 | exactly which requests each gate refuses, 422 for a problem without active tests, and that a refusal leaves no document and no job; else the creation as a run of the step machine for every combination of failing writes |
| SubmissionService.TrimMeans | backend/src/queues/submission.queue.js:74-80 | the job id is the submission id without white space at its ends |
| Metrics.ExportIsCumulative | backend/src/modules/observability/metrics.service.js:193-201 | a histogram is exported in increasing order, cumulatively, ending with its count, each bucket counting the samples at or below its bound |
| Metrics.RecordHistogramSample | backend/src/modules/observability/metrics.service.js:75-94 | one more sample turns the histogram of the samples into the histogram of all |
| Metrics.CountersMatchHistogram | backend/src/modules/observability/metrics.service.js:99-138 | per series, counters summed over their labels equal the histogram's count |
| Metrics.MetricsService.RecordHttpRequest | backend/src/modules/observability/metrics.service.js:99-108 | one more request under its method, route and status, and one more sample of its duration in seconds, in exactly the buckets it belongs to; nothing else changes |
| Metrics.MetricsService.RecordSubmission | backend/src/modules/observability/metrics.service.js:113-138 | the same for the verdict and the duration of a submission, by language |
| Metrics.MetricsService.RecordCompleted | backend/src/workers/submission.worker.js:247-251 | a completed job is counted, and its verdict and duration if and only if a submission was returned |
| Metrics.MetricsService.RecordFailed | backend/src/workers/submission.worker.js:265-266 | failures summed over their types equal the jobs counted failed |
| Metrics.MetricsService.CountersAreConserved | backend/src/modules/observability/metrics.service.js:99-138 | the conservation laws in every state of the service |
| Metrics.MetricsService.ExportsAreWellFormed | backend/src/modules/observability/metrics.service.js:190-235 | every stored histogram is exported as the text format requires, and under labels of its own if routes have no bars |
| Metrics.MetricsService.CompilationErrorsAreNotCounted | backend/src/workers/submission.worker.js:247-251 | in every state of the service no counter for COMPILATION_ERROR exists, in any language; the completed jobs without a verdict are those without a submission |
| Metrics.LabelsSurviveIffNoBar | backend/src/modules/observability/metrics.service.js:185-188 | the exported labels of a request are the recorded ones if and only if its route contains no bar |
| Metrics.SameLabelsIff | backend/src/modules/observability/metrics.service.js:193-201 | exactly when two series are exported under the same labels |
| WorkerRegistry.ListedIffHeardFrom | backend/src/workers/worker-registry.service.js:47-157 | a worker is listed exactly while its last write is younger than 15 s, or 5 s after STOPPED, whatever others write |
| WorkerRegistry.FaithfulIffNoStaleBeat | backend/src/workers/worker-registry.service.js:84-114 | the stored status is always the requested one if and only if no heartbeat is stale |
| WorkerRegistry.VisibleStatusNeverGoesBack | backend/src/workers/worker-registry.service.js:124-157 | over all pairs of moments of a log, the visible status never goes back if and only if no heartbeat is stale |
| WorkerRegistry.LateBeatGoesBack | backend/src/workers/worker-registry.service.js:97-106 | a log in which a beat after expiry shows a draining worker as READY |
| WorkerRegistry.OverlappingBeatGoesBack | backend/src/workers/worker-registry.service.js:88-108 | a log in which a heartbeat that overlaps with a status change undoes it |
| WorkerRegistry.RegularBeatsAreNotStale | backend/src/workers/submission.worker.js:439-449 | heartbeats less than the TTL apart that overlap with no status change are never stale |
| WorkerRegistry.ListedBetweenBeats | backend/src/workers/submission.worker.js:439-449 | with regular heartbeats a worker is listed at every instant between them |
| WorkerRegistry.Registry.RegisterWorker | backend/src/workers/worker-registry.service.js:47-75 | registering appends one write to the log that the store replays |
| WorkerRegistry.Registry.HeartbeatWorker | backend/src/workers/worker-registry.service.js:84-114 | the same for a heartbeat, whatever was written since its `get`: the record it read with a new time, or a new one, for 15 s |
| WorkerRegistry.Registry.UpdateWorkerStatus | backend/src/workers/worker-registry.service.js:124-157 | the same for a status change, with the short TTL for STOPPED |
| WorkerRegistry.Registry.GetActiveWorkers | backend/src/workers/worker-registry.service.js:185-223 | every worker whose key exists is returned once, with its record, in the order of `startedAt` |
| Readiness.GetProblemReadiness | backend/src/modules/problems/problem.service.js:10-47 | the report counts the active tests of the problem, for any order of the groups, and names exactly what is missing |
| Readiness.ReadinessDescribes | backend/src/modules/problems/problem.service.js:30-46 | counts, readiness and missing requirements in terms of the stored tests |
| Readiness.ListReadiness | backend/src/modules/problems/problem.service.js:228-294 | every report of a page equals the one for that problem alone |
| Readiness.ReadyProblemsAcceptSubmissions | backend/src/modules/submissions/submission.service.js:31-42 | a ready problem passes the submission gate; one that passes without being ready has hidden tests only |
| Readiness.NewProblemReportDiffers | backend/src/modules/problems/problem.service.js:74-81 | the report on creation differs from later ones in the missing requirements only |

## Left out

- Ambiguous database and queue failures: an operation that fails has no effect in the model, and an enqueue that fails has added no job.
- A process that dies between saving QUEUED and enqueueing: the code documents this window as open, so the claim that nothing is lost starts after the enqueue.
- A redelivery while the attempt that holds the job is still at work, as an eventual outcome: such runs are covered by the results on all runs and on timely runs; recovery is proved for attempts that crashed.
- Changes to a problem's tests while a submission is judged, and programs whose verdict differs from one execution to the next.
- `execution.workerId`, `completedAt`, `failedAt`, `errorMessage` and the audit timestamps of the document: they are written and never read by the protocol.
- The unsupported-language branch of `executeSubmission`, which the schema's enum excludes, and malformed job payloads.
- WorkerRegistry.Registry.GetActiveWorkers: does not model malformed records, which the code skips, and the 200 ms race.
- Metrics.MetricsService.RecordHttpRequest: takes `normalizeRoute` as an arbitrary function, and changes the case of ASCII letters only.
- `sanitizeOutput` is an arbitrary function on text; UTF-8 decoding of chunks, the texts of `stderr` and `compileOutput`, container flags and file handling are not part of the model.
- Floating-point rounding of durations (exact reals here) and clock skew between hosts (one clock here).
- Authentication, rate limiting, tracing, shutdown, pagination, the frontend and the scripts.
