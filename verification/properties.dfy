/**
  Properties of the retry runner that relate several evaluations or several
  runs, stated over the reference definitions the runner's methods are
  proved to agree with.
 */
module RetryRunnerProperties {
  import opened JUnit
  import opened Attempts
  import opened RetryRunner

  // ---------------------------------------------------------------------------
  // retry
  // ---------------------------------------------------------------------------

  /** retry reports a failure exactly when every one of its RETRY_COUNT
      evaluations throws. */
  lemma RetryFailsIffEveryRetryThrows(stmt: Statement, done: nat, d: Description)
    ensures RetryVerdict(stmt, done, d).events != [] <==>
              forall k :: done <= k < done + RETRY_COUNT ==> stmt(k).Threw?
  {}

  /** Inside retry a throwable is a throwable: an assumption violation or a
      user stop counts as a failed attempt exactly like any other error. Two
      statements that pass and throw at the same retries, and throw the same
      throwable last, get the same verdict. */
  lemma RetryIgnoresThrowableKinds(s1: Statement, s2: Statement, done: nat, d: Description)
    requires forall k :: done <= k < done + RETRY_COUNT ==> s1(k).Passed? == s2(k).Passed?
    requires s1(done + RETRY_COUNT - 1) == s2(done + RETRY_COUNT - 1)
    ensures RetryVerdict(s1, done, d) == RetryVerdict(s2, done, d)
  {}

  // ---------------------------------------------------------------------------
  // runTest and runChild
  // ---------------------------------------------------------------------------

  /** runTest brackets everything it reports: testStarted comes first,
      testFinished last, each exactly once, whatever the evaluations do. */
  lemma TestTraceIsBracketed(stmt: Statement, d: Description)
    ensures var t := TestTrace(stmt, d);
            && 2 <= |t| <= 3
            && t[0] == Started(d) && t[|t| - 1] == Finished(d)
            && multiset(t)[Started(d)] == 1 && multiset(t)[Finished(d)] == 1
  {}

  /** An assumption violation on the first evaluation is recorded once and
      never retried, and no failure is reported. */
  lemma FirstAssumptionFailureIsNotRetried(stmt: Statement, d: Description)
    requires IsAssumptionFailure(stmt(0))
    ensures TestVerdict(stmt, d) == Verdict(1, [FailedAssumption(d, stmt(0).t)])
    ensures !ReportsFailure(TestTrace(stmt, d))
  {}

  /** runTest reports a failure exactly when the first evaluation throws
      something other than an assumption violation and every retry throws
      too; the failure it reports carries the last retry's throwable. */
  lemma TestFailsIffEveryEvaluationThrows(stmt: Statement, d: Description)
    ensures ReportsFailure(TestTrace(stmt, d)) <==>
              && !IsAssumptionFailure(stmt(0))
              && forall k :: 0 <= k <= RETRY_COUNT ==> stmt(k).Threw?
    ensures ReportsFailure(TestTrace(stmt, d)) ==>
              && TestVerdict(stmt, d).evaluations == 1 + RETRY_COUNT
              && TestVerdict(stmt, d).events == [Failure(d, stmt(RETRY_COUNT).t)]
  {
    var t := TestTrace(stmt, d);
    if stmt(0).Threw? && !stmt(0).t.AssumptionViolated? {
      RetryFailsIffEveryRetryThrows(stmt, 1, d);
      if RetryVerdict(stmt, 1, d).events != [] {
        assert t[1].Failure?;
      }
    }
  }

  /** runTest stops at the first evaluation that passes: if the first k
      evaluations throw (the first one not an assumption violation) and
      evaluation k passes, the test is evaluated k + 1 times and reports
      nothing between started and finished. */
  lemma TestStopsAtFirstPass(stmt: Statement, d: Description, k: nat)
    requires k <= RETRY_COUNT
    requires !IsAssumptionFailure(stmt(0))
    requires forall j :: 0 <= j < k ==> stmt(j).Threw?
    requires stmt(k).Passed?
    ensures TestVerdict(stmt, d) == Verdict(k + 1, [])
    ensures TestTrace(stmt, d) == [Started(d), Finished(d)]
  {}

  /** runTest looks at nothing beyond the evaluations it makes: a statement
      that agrees on those evaluations gets the same verdict. */
  lemma TestReadsOnlyItsEvaluations(s1: Statement, s2: Statement, d: Description)
    requires forall k :: 0 <= k < TestVerdict(s1, d).evaluations ==> s1(k) == s2(k)
    ensures TestVerdict(s2, d) == TestVerdict(s1, d)
  {}

  /** An assumption violation raised by a retry is not recorded as a failed
      assumption: when it is the last retry's throwable, it is reported as
      the test's failure. */
  lemma RetriedAssumptionFailureIsReportedAsFailure(stmt: Statement, d: Description)
    requires stmt(0).Threw? && !IsAssumptionFailure(stmt(0))
    requires forall k :: 1 <= k < RETRY_COUNT ==> stmt(k).Threw?
    requires IsAssumptionFailure(stmt(RETRY_COUNT))
    ensures TestVerdict(stmt, d).events == [Failure(d, stmt(RETRY_COUNT).t)]
    ensures FailedAssumption(d, stmt(RETRY_COUNT).t) !in TestTrace(stmt, d)
  {}

  // ---------------------------------------------------------------------------
  // run (class level)
  // ---------------------------------------------------------------------------

  /** run rethrows only a user stop raised by the first evaluation of the
      class statement; everything else it reports on the class description,
      and it never reports started or finished for the class. */
  lemma ClassRunReportsOnTheClass(c: TestClass)
    ensures ClassRunVerdict(c).completion.Rethrown? <==> IsUserStop(c.block(0))
    ensures forall e :: e in ClassRunVerdict(c).events ==>
              e.d == c.name && (e.Ignored? || e.Failure?)
  {}

  /** At class level, run reports a failure exactly when the first
      evaluation throws an ordinary error (neither an assumption violation
      nor a user stop) and every retry throws too; the failure carries the
      last retry's throwable and names the class. */
  lemma ClassFailsIffEveryEvaluationThrows(c: TestClass)
    ensures ReportsFailure(ClassRunVerdict(c).events) <==>
              && c.block(0).Threw? && c.block(0).t.Error?
              && forall k :: 0 <= k <= RETRY_COUNT ==> c.block(k).Threw?
    ensures ReportsFailure(ClassRunVerdict(c).events) ==>
              && ClassRunVerdict(c).evaluations == 1 + RETRY_COUNT
              && ClassRunVerdict(c).events == [Failure(c.name, c.block(RETRY_COUNT).t)]
  {
    var v := ClassRunVerdict(c);
    if c.block(0).Threw? && c.block(0).t.Error? {
      RetryFailsIffEveryRetryThrows(c.block, 1, c.name);
      if v.events != [] {
        assert v.events[0].Failure?;
      }
    }
  }

  /** A class whose first evaluation throws an ordinary error is retried
      until its first passing evaluation: if evaluation k is the first to
      pass, run evaluates the class k + 1 times, reports nothing and returns. */
  lemma ClassStopsAtFirstPass(c: TestClass, k: nat)
    requires 1 <= k <= RETRY_COUNT
    requires c.block(0).Threw? && c.block(0).t.Error?
    requires forall j :: 0 <= j < k ==> c.block(j).Threw?
    requires c.block(k).Passed?
    ensures ClassRunVerdict(c) == ClassVerdict(k + 1, [], Returned)
  {}

  /** A user stop raised while the class is being retried does not stop the
      run: it is counted as a failed attempt, run returns normally, and the
      class statement is evaluated once more. */
  lemma ClassStopDuringRetryIsSwallowed(c: TestClass)
    requires c.block(0).Threw? && c.block(0).t.Error?
    requires IsUserStop(c.block(1))
    ensures ClassRunVerdict(c).completion == Returned
    ensures ClassRunVerdict(c).evaluations == 3
    ensures c.block(2).Passed? ==> ClassRunVerdict(c).events == []
    ensures c.block(2).Threw? ==> ClassRunVerdict(c).events == [Failure(c.name, c.block(2).t)]
  {}
}
