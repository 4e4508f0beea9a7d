# Retry runner model

A Dafny model of `RetryRunner`, the JUnit 4 class runner that the Amplify
Android test utilities use to re-run flaky instrumentation tests. The runner
evaluates a test once; if the test throws (other than an assumption
violation) it re-evaluates it up to `RETRY_COUNT` = 2 more times. It stops at
the first evaluation that passes, and reports one failure only when every
retry throws. The same retry logic wraps the whole class statement, except
that a user stop is rethrown and an assumption violation marks the class
ignored.

The model has four modules:

- `JUnit` (`junit.dfy`): the vocabulary the runner sees. Throwables are reduced to
  three kinds: assumption violation, user stop, and any other error. An id tells
  two throwables apart. `Outcome` is what one `Statement.evaluate()` does. A
  `Statement` is an oracle `nat -> Outcome` giving the outcome of its k-th
  evaluation, so a flaky test can pass or fail independently on each re-run.
  Notifier calls are `Event`s appended to a log, each carrying its `Description`.
- `Attempts` (`attempts.dfy`): `FirstPass`, a recursive reference definition of
  "the first evaluation in a window that passes". It does not depend on the
  runner's loop.
- `RetryRunner` (`retry_runner.dfy`): `RETRY_COUNT`, the reference functions
  `RetryVerdict`, `TestVerdict` and `ClassRunVerdict`, and the methods `Retry`,
  `RunTest`, `RunChild` and `Run`. The methods follow the runner's control flow:
  the try/catch clauses, the `finally` block, and the `while` loop on
  `failedAttempts`. Each method is proved to agree with its reference function.
  Each method takes the notifier's log and returns it extended. It also returns
  how many evaluations it made.
- `RetryRunnerProperties` (`properties.dfy`): lemmas relating several
  evaluations or several statements.

The class comment of the source says a failing suite is run "one more time".
The code allows up to `RETRY_COUNT` = 2 re-evaluations. The model follows the
code, so a test is evaluated at most three times.

## Model

| member | source | states |
|---|---|---|
| `Attempts.FirstPass` | testutils/src/main/java/com/amplifyframework/testutils/runners/RetryRunner.java:108-116 | The offset it returns is the first passing evaluation in the window, and every earlier one threw. It returns None exactly when every evaluation in the window threw. |
| `RetryRunner.RetryVerdict` | testutils/src/main/java/com/amplifyframework/testutils/runners/RetryRunner.java:105-119 | retry evaluates between 1 and RETRY_COUNT times, and every evaluation but the last threw. It reports nothing exactly when the last evaluation passed. Otherwise it made all RETRY_COUNT evaluations and reports one failure, carrying the last retry's throwable. |
| `RetryRunner.Retry` | testutils/src/main/java/com/amplifyframework/testutils/runners/RetryRunner.java:105-119 | The loop returns right after the first passing evaluation and leaves the log unchanged. If all RETRY_COUNT attempts throw, it appends exactly one `Failure` with the last attempt's throwable, not the original one. It agrees with `RetryVerdict`. The loop invariant keeps `failedAttempts` in 0..RETRY_COUNT, and every counted attempt threw. |
| `RetryRunner.TestVerdict` | testutils/src/main/java/com/amplifyframework/testutils/runners/RetryRunner.java:90-103 | A test is evaluated between 1 and 1 + RETRY_COUNT times. At most one event sits between started and finished. It is evaluated more than once exactly when the first evaluation threw something other than an assumption violation. |
| `RetryRunner.ClassRunVerdict` | testutils/src/main/java/com/amplifyframework/testutils/runners/RetryRunner.java:64-78 | The class statement is evaluated between 1 and 1 + RETRY_COUNT times, and run reports at most one event. A class that passes first time is evaluated once and reports nothing. The class is evaluated more than once exactly when the first evaluation threw an ordinary error; it then returns normally, and reports nothing exactly when its last evaluation passed. When run rethrows, it evaluated the class once and reported nothing. |
| `RetryRunner.RunTest` | testutils/src/main/java/com/amplifyframework/testutils/runners/RetryRunner.java:90-103 | runTest keeps the earlier log and appends `Started` first and `Finished` last, on every path. It makes at most 1 + RETRY_COUNT evaluations. An assumption violation on the first evaluation gives exactly started, failed assumption, finished, after one evaluation. It agrees with `TestTrace` / `TestVerdict`. |
| `RetryRunner.RunChild` | testutils/src/main/java/com/amplifyframework/testutils/runners/RetryRunner.java:80-88 | An `@Ignore` method appends only `Ignored`, and only an ignored method is never evaluated. Any other method gets the full runTest trace and is evaluated exactly as often as runTest evaluates it, between 1 and 1 + RETRY_COUNT times. It agrees with `TestTrace` / `TestVerdict`. |
| `RetryRunner.Run` | testutils/src/main/java/com/amplifyframework/testutils/runners/RetryRunner.java:64-78 | run rethrows exactly when the first evaluation raised a user stop. It rethrows that throwable without retrying or reporting. An assumption violation gives one `Ignored` for the class after one evaluation. A passing class is evaluated once and reports nothing. The class is retried exactly when the first evaluation threw an ordinary error. The class statement is evaluated at most 1 + RETRY_COUNT times. It agrees with `ClassRunVerdict`. |
| `RetryRunnerProperties.RetryFailsIffEveryRetryThrows` | testutils/src/main/java/com/amplifyframework/testutils/runners/RetryRunner.java:106-118 | retry reports a failure if and only if all RETRY_COUNT evaluations throw. |
| `RetryRunnerProperties.RetryIgnoresThrowableKinds` | testutils/src/main/java/com/amplifyframework/testutils/runners/RetryRunner.java:108-116 | Inside the retry loop, every kind of throwable is a failed attempt. Two statements that pass and throw at the same retries, and throw the same last throwable, get the same verdict. |
| `RetryRunnerProperties.TestTraceIsBracketed` | testutils/src/main/java/com/amplifyframework/testutils/runners/RetryRunner.java:90-103 | runTest's events start with `Started` and end with `Finished`. Each occurs exactly once, and there are 2 or 3 events in all. |
| `RetryRunnerProperties.FirstAssumptionFailureIsNotRetried` | testutils/src/main/java/com/amplifyframework/testutils/runners/RetryRunner.java:93-96 | An assumption violation on the first evaluation is recorded as a failed assumption after one evaluation. No failure is reported. |
| `RetryRunnerProperties.TestFailsIffEveryEvaluationThrows` | testutils/src/main/java/com/amplifyframework/testutils/runners/RetryRunner.java:90-119 | runTest reports a failure if and only if two things hold: the first evaluation threw something other than an assumption violation, and all 1 + RETRY_COUNT evaluations threw. The failure carries the throwable of the last evaluation. |
| `RetryRunnerProperties.TestStopsAtFirstPass` | testutils/src/main/java/com/amplifyframework/testutils/runners/RetryRunner.java:93-117 | Say evaluation k is the first that passes, and the first evaluation was not an assumption violation. Then the test is evaluated exactly k + 1 times and only started and finished are reported. |
| `RetryRunnerProperties.TestReadsOnlyItsEvaluations` | testutils/src/main/java/com/amplifyframework/testutils/runners/RetryRunner.java:93-117 | Outcomes after the last evaluation runTest makes do not affect its verdict. |
| `RetryRunnerProperties.RetriedAssumptionFailureIsReportedAsFailure` | testutils/src/main/java/com/amplifyframework/testutils/runners/RetryRunner.java:105-118 | Say the last retry raises an assumption violation. It is reported as the test's failure, and never as a failed assumption. |
| `RetryRunnerProperties.ClassRunReportsOnTheClass` | testutils/src/main/java/com/amplifyframework/testutils/runners/RetryRunner.java:64-78 | run rethrows if and only if the first evaluation raised a user stop. Every event it reports is an ignored or failure event for the class's own description. |
| `RetryRunnerProperties.ClassFailsIffEveryEvaluationThrows` | testutils/src/main/java/com/amplifyframework/testutils/runners/RetryRunner.java:68-77 | run reports a failure if and only if two things hold: the first class evaluation threw an ordinary error (neither an assumption violation nor a user stop), and all 1 + RETRY_COUNT evaluations threw. The failure names the class and carries the throwable of the last evaluation. |
| `RetryRunnerProperties.ClassStopsAtFirstPass` | testutils/src/main/java/com/amplifyframework/testutils/runners/RetryRunner.java:74-76 | Say the first class evaluation threw an ordinary error and evaluation k is the first that passes. Then the class is evaluated exactly k + 1 times, nothing is reported, and run returns normally. |
| `RetryRunnerProperties.ClassStopDuringRetryIsSwallowed` | testutils/src/main/java/com/amplifyframework/testutils/runners/RetryRunner.java:68-77 | A user stop raised by a class-level retry does not propagate. It counts as a failed attempt, the class is evaluated a third time, and run returns normally. |

## Left out

- The storage adapter (`SQLiteStorageAdapter`, `PersistentModelVersion`) is not part of this model. It is a separate component of the aws-datastore module that `RetryRunner` never calls. The instrumented test `ModelUpgradeSQLiteInstrumentedTest` only drives it, through Android/SQLite I/O and timeout-based waiting.
- How `classBlock` and `methodBlock` build statements is not modelled. This includes `@BeforeClass`/`@AfterClass`, rules, and the child tests the class statement runs. The class statement is an opaque oracle of outcomes, so events reported by child tests during a class evaluation do not appear in `Run`'s log.
- `EachTestNotifier.addFailure` splits a `MultipleFailureException` into several failures. The model reports one `Failure` per call, because throwables are reduced to three kinds.
- `RunNotifier.fireTestStarted` can itself throw `StoppedByUserException` after `pleaseStop`. That exception is thrown by JUnit's notifier, not by the runner. Notifier listeners that throw are not modelled either.
- `Log.d` calls are omitted because they only log. The constructor and its `InitializationError` are omitted because they are JUnit reflection. `Description` objects are reduced to a display name, and the `@Ignore` annotation lookup is reduced to a boolean.
- Timing, threads and real re-execution of test bodies are not modelled. Evaluation outcomes come from the `Statement` oracle.
