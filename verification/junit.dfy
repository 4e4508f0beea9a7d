/**
  The part of JUnit 4 that the retry runner sees: throwables reduced to the
  three kinds the runner's catch clauses tell apart, the outcome of one
  evaluation of a statement, and the events a notifier records.
 */
module JUnit {

  /** A test's or a class's display name, as carried by a JUnit Description. */
  type Description = string

  /** A throwable, reduced to its kind. The id tells two throwables of the
      same kind apart (which attempt raised it). */
  datatype Throwable =
    | AssumptionViolated(id: nat)   // org.junit.internal.AssumptionViolatedException
    | StoppedByUser(id: nat)        // org.junit.runner.notification.StoppedByUserException
    | Error(id: nat)                // any other Throwable

  /** What one call of Statement.evaluate() does: return normally or throw. */
  datatype Outcome = Passed | Threw(t: Throwable)

  /** A statement, given by the outcome of its k-th evaluation (k counts from 0).
      Re-running a flaky test may pass or fail independently each time, so the
      statement is an oracle rather than a single outcome. */
  type Statement = nat -> Outcome

  /** One call made on the RunNotifier, with the Description it was made for. */
  datatype Event =
    | Started(d: Description)
    | Finished(d: Description)
    | Ignored(d: Description)
    | FailedAssumption(d: Description, e: Throwable)
    | Failure(d: Description, t: Throwable)

  /** A test method as runChild sees it: its description, whether it carries
      the @Ignore annotation, and the statement methodBlock builds for it. */
  datatype FrameworkMethod = FrameworkMethod(name: Description, ignored: bool, body: Statement)

  /** A test class as run sees it: its description and the statement
      classBlock builds for it. */
  datatype TestClass = TestClass(name: Description, block: Statement)

  /** How a runner entry point ends: it returns, or it rethrows a throwable. */
  datatype Completion = Returned | Rethrown(t: Throwable)

  /** True when the outcome is a throw of an assumption violation. */
  predicate IsAssumptionFailure(o: Outcome) {
    o.Threw? && o.t.AssumptionViolated?
  }

  /** True when the outcome is a throw of a user stop. */
  predicate IsUserStop(o: Outcome) {
    o.Threw? && o.t.StoppedByUser?
  }

  /** True when some event of the log is a reported failure. */
  predicate ReportsFailure(log: seq<Event>) {
    exists i :: 0 <= i < |log| && log[i].Failure?
  }
}
