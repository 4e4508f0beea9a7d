/**
  A reference definition of "the first attempt that passes", independent of
  the runner's retry loop.
 */
module Attempts {
  import opened JUnit

  datatype Option<T> = None | Some(value: T)

  /** The offset of the first passing evaluation among the n evaluations
      stmt(from), ..., stmt(from + n - 1), or None when every one of them threw. */
  function FirstPass(stmt: Statement, from: nat, n: nat): (r: Option<nat>)
    ensures r.Some? ==> r.value < n && stmt(from + r.value).Passed?
    ensures r.Some? ==> forall k :: from <= k < from + r.value ==> stmt(k).Threw?
    ensures r.None? <==> forall k :: from <= k < from + n ==> stmt(k).Threw?
    decreases n
  {
    if n == 0 then None
    else
      match FirstPass(stmt, from, n - 1)
      case Some(k) => Some(k)
      case None => if stmt(from + n - 1).Passed? then Some(n - 1) else None
  }
}
