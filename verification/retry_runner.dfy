/**
  The retry runner: a JUnit 4 class runner that re-evaluates a failing test
  (or a failing class) up to RETRY_COUNT more times and reports one failure
  only when every retry throws.

  Each entry point appears twice: as a reference function that says what the
  runner reports (a Verdict), and as a method that follows the runner's own
  control flow (try/catch/finally, the retry loop) and is proved to agree
  with it. Notifier calls append to an event log; a method never rewrites the
  log it is given.
 */
module RetryRunner {
  import opened JUnit
  import opened Attempts

  /** How many times retry re-evaluates a statement that keeps throwing. */
  const RETRY_COUNT: nat := 2

  /** What a runner entry point reports: how many times it evaluated the
      statement, and the events it adds between its own bookkeeping events. */
  datatype Verdict = Verdict(evaluations: nat, events: seq<Event>)

  /** What run reports for a class: as Verdict, plus how run ends. */
  datatype ClassVerdict = ClassVerdict(evaluations: nat, events: seq<Event>, completion: Completion)

  // ---------------------------------------------------------------------------
  // Reference definitions
  // ---------------------------------------------------------------------------

  /** retry, for a statement already evaluated `done` times: it stops at the
      first retry that passes and reports nothing, or, when all RETRY_COUNT
      retries throw, reports one failure carrying the last retry's throwable. */
  function RetryVerdict(stmt: Statement, done: nat, d: Description): (v: Verdict)
    ensures 1 <= v.evaluations <= RETRY_COUNT
    ensures forall k :: done <= k < done + v.evaluations - 1 ==> stmt(k).Threw?
    ensures v.events == [] <==> stmt(done + v.evaluations - 1).Passed?
    ensures v.events != [] ==>
              && v.evaluations == RETRY_COUNT
              && stmt(done + RETRY_COUNT - 1).Threw?
              && v.events == [Failure(d, stmt(done + RETRY_COUNT - 1).t)]
  {
    match FirstPass(stmt, done, RETRY_COUNT)
    case Some(k) => Verdict(k + 1, [])
    case None => Verdict(RETRY_COUNT, [Failure(d, stmt(done + RETRY_COUNT - 1).t)])
  }

  /** runTest, without its started/finished bracket: the first evaluation
      either passes, fails an assumption (recorded, never retried), or throws
      anything else and hands over to retry. */
  function TestVerdict(stmt: Statement, d: Description): (v: Verdict)
    ensures 1 <= v.evaluations <= 1 + RETRY_COUNT
    ensures |v.events| <= 1
    ensures v.evaluations > 1 <==> stmt(0).Threw? && !stmt(0).t.AssumptionViolated?
  {
    match stmt(0)
    case Passed => Verdict(1, [])
    case Threw(e) =>
      if e.AssumptionViolated? then Verdict(1, [FailedAssumption(d, e)])
      else
        var r := RetryVerdict(stmt, 1, d);
        Verdict(1 + r.evaluations, r.events)
  }

  /** Every event runTest adds to the log, in order. */
  function TestTrace(stmt: Statement, d: Description): seq<Event> {
    [Started(d)] + TestVerdict(stmt, d).events + [Finished(d)]
  }

  /** run on a class: a user stop on the first evaluation is rethrown, an
      assumption violation marks the class ignored, and any other throwable
      retries the whole class statement. */
  function ClassRunVerdict(c: TestClass): (v: ClassVerdict)
    ensures 1 <= v.evaluations <= 1 + RETRY_COUNT
    ensures |v.events| <= 1
    ensures v.completion.Rethrown? ==> v.evaluations == 1 && v.events == []
    ensures c.block(0).Passed? ==> v == ClassVerdict(1, [], Returned)
    ensures v.evaluations > 1 <==> c.block(0).Threw? && c.block(0).t.Error?
    ensures v.evaluations > 1 ==>
              && v.completion == Returned
              && (v.events == [] <==> c.block(v.evaluations - 1).Passed?)
  {
    match c.block(0)
    case Passed => ClassVerdict(1, [], Returned)
    case Threw(t) =>
      if t.AssumptionViolated? then ClassVerdict(1, [Ignored(c.name)], Returned)
      else if t.StoppedByUser? then ClassVerdict(1, [], Rethrown(t))
      else
        var r := RetryVerdict(c.block, 1, c.name);
        ClassVerdict(1 + r.evaluations, r.events, Returned)
  }

  // ---------------------------------------------------------------------------
  // The runner's control flow
  // ---------------------------------------------------------------------------

  /** retry(notifier, statement, currentThrowable, info), for a statement
      already evaluated `done` times. Returns the log after the call and the
      number of evaluations it made. */
  method Retry(stmt: Statement, done: nat, current: Throwable, d: Description, log: seq<Event>)
    returns (log': seq<Event>, evaluations: nat)
    ensures 1 <= evaluations <= RETRY_COUNT
    ensures forall k :: done <= k < done + evaluations - 1 ==> stmt(k).Threw?
    ensures stmt(done + evaluations - 1).Passed? ==> log' == log
    ensures stmt(done + evaluations - 1).Threw? ==>
              evaluations == RETRY_COUNT && log' == log + [Failure(d, stmt(done + evaluations - 1).t)]
    ensures log' == log + RetryVerdict(stmt, done, d).events && evaluations == RetryVerdict(stmt, done, d).evaluations
  {
    var failedAttempts: nat := 0;
    var caughtThrowable := current;
    evaluations := 0;
    while RETRY_COUNT > failedAttempts
      invariant failedAttempts <= RETRY_COUNT
      invariant evaluations == failedAttempts
      invariant forall k :: done <= k < done + failedAttempts ==> stmt(k).Threw?
      invariant failedAttempts > 0 ==> stmt(done + failedAttempts - 1) == Threw(caughtThrowable)
      decreases RETRY_COUNT - failedAttempts
    {
      var outcome := stmt(done + failedAttempts);   // the next evaluation of the statement
      evaluations := evaluations + 1;
      match outcome
      case Passed =>
        log' := log;
        return;
      case Threw(t) =>
        failedAttempts := failedAttempts + 1;
        caughtThrowable := t;
    }
    log' := log + [Failure(d, caughtThrowable)];   // the failure carries the last retry's throwable
  }

  /** runTest(statement, description, notifier): started, one evaluation,
      the catch clauses, and finished in the finally block. */
  method RunTest(stmt: Statement, d: Description, log: seq<Event>)
    returns (log': seq<Event>, evaluations: nat)
    ensures 1 <= evaluations <= 1 + RETRY_COUNT
    ensures |log| + 2 <= |log'| <= |log| + 3
    ensures log'[..|log|] == log
    ensures log'[|log|] == Started(d) && log'[|log'| - 1] == Finished(d)
    ensures IsAssumptionFailure(stmt(0)) ==>
              evaluations == 1 && log' == log + [Started(d), FailedAssumption(d, stmt(0).t), Finished(d)]
    ensures log' == log + TestTrace(stmt, d) && evaluations == TestVerdict(stmt, d).evaluations
  {
    log' := log + [Started(d)];   // started is reported before any evaluation
    match stmt(0) {               // the first evaluation
      case Passed =>
        evaluations := 1;
      case Threw(e) =>
        if e.AssumptionViolated? {
          log' := log' + [FailedAssumption(d, e)];   // recorded, not retried
          evaluations := 1;
        } else {
          var retried;
          log', retried := Retry(stmt, 1, e, d, log');
          evaluations := 1 + retried;
        }
    }
    log' := log' + [Finished(d)];   // finished is reported on every path
  }

  /** runChild(method, notifier): an @Ignore method is only reported ignored;
      any other method is run with runTest. */
  method RunChild(m: FrameworkMethod, log: seq<Event>) returns (log': seq<Event>, evaluations: nat)
    ensures m.ignored <==> evaluations == 0
    ensures m.ignored ==> log' == log + [Ignored(m.name)]
    ensures !m.ignored ==> 1 <= evaluations <= 1 + RETRY_COUNT
    ensures !m.ignored ==> log' == log + TestTrace(m.body, m.name)
    ensures !m.ignored ==> evaluations == TestVerdict(m.body, m.name).evaluations
  {
    if m.ignored {
      log' := log + [Ignored(m.name)];
      evaluations := 0;
    } else {
      log', evaluations := RunTest(m.body, m.name, log);
    }
  }

  /** run(notifier) on a class: one evaluation of the class statement and the
      catch clauses around it. */
  method Run(c: TestClass, log: seq<Event>)
    returns (log': seq<Event>, evaluations: nat, completion: Completion)
    ensures 1 <= evaluations <= 1 + RETRY_COUNT
    ensures completion.Rethrown? <==> IsUserStop(c.block(0))
    ensures completion.Rethrown? ==> completion.t == c.block(0).t && evaluations == 1 && log' == log
    ensures IsAssumptionFailure(c.block(0)) ==> evaluations == 1 && log' == log + [Ignored(c.name)]
    ensures c.block(0).Passed? ==> evaluations == 1 && log' == log && completion == Returned
    ensures evaluations > 1 <==> c.block(0).Threw? && c.block(0).t.Error?
    ensures log' == log + ClassRunVerdict(c).events
    ensures ClassRunVerdict(c) == ClassVerdict(evaluations, ClassRunVerdict(c).events, completion)
  {
    completion := Returned;
    match c.block(0)             // the first evaluation of the class
    case Passed =>
      log' := log;
      evaluations := 1;
    case Threw(t) =>
      if t.AssumptionViolated? {
        log' := log + [Ignored(c.name)];   // the whole class is reported ignored
        evaluations := 1;
      } else if t.StoppedByUser? {
        log' := log;
        evaluations := 1;
        completion := Rethrown(t);        // the stop propagates to the caller
      } else {
        var retried;
        log', retried := Retry(c.block, 1, t, c.name, log);
        evaluations := 1 + retried;
      }
  }
}
