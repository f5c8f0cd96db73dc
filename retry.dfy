/**
 * The bounded retry wrapper `retry(fn, maxRetries, delay)` of target.js.
 *
 * The wrapped operation is given as the sequence of its outcomes: `fn(n)` is
 * what the n-th call of the operation resolves to or throws, and a wrapper
 * that starts when `from` calls have already been made sees `fn(from)`,
 * `fn(from + 1)`, ... A run reports what the wrapper returned or rethrew, how
 * many times it called the operation and how many times it slept for `delay`
 * milliseconds.
 */
module Retrying {
  import opened Rpc

  /** Default attempt bound and delay (milliseconds) of the wrapper. */
  const MAX_RETRIES: int := 5
  const RETRY_DELAY: nat := 5000

  /**
   * What `retry` hands back to its caller: the first successful value, the
   * error of the last attempt rethrown unchanged, or (when the loop body never
   * runs because `maxRetries <= 0`) the value `undefined`.
   */
  datatype RetryResult<+T> = Returned(value: T) | Rethrown(error: RpcError) | NotAttempted

  datatype RetryTrace<+T> = RetryTrace(result: RetryResult<T>, calls: nat, sleeps: nat)

  /**
   * Number of failures before the first success among the `n` outcomes
   * `fn(from), ..., fn(from + n - 1)`, or `n` if all of them fail.
   */
  function FirstSuccess<T>(fn: nat -> Outcome<T>, from: nat, n: nat): (k: nat)
    ensures k <= n
    ensures forall i :: from <= i < from + k ==> fn(i).Err?
    ensures k < n ==> fn(from + k).Ok?
  {
    if n == 0 then 0
    else
      var k := FirstSuccess(fn, from, n - 1);
      if k < n - 1 then k
      else if fn(from + n - 1).Ok? then n - 1
      else n
  }

  /**
   * The run of `retry(fn, maxRetries)` started after `from` calls, defined by
   * the first success rather than by the loop: stop at the first successful
   * call, otherwise make exactly `maxRetries` calls and rethrow the last error;
   * sleep after every failed call except the last one.
   */
  function RetryOutcome<T>(fn: nat -> Outcome<T>, from: nat, maxRetries: int): (t: RetryTrace<T>)
    ensures maxRetries <= 0 ==> t == RetryTrace(NotAttempted, 0, 0)
    ensures maxRetries >= 1 ==> 1 <= t.calls <= maxRetries && t.sleeps == t.calls - 1
    ensures forall i :: from <= i < from + t.calls - 1 ==> fn(i).Err?
    ensures maxRetries >= 1 ==>
      || (t.result.Returned? && fn(from + t.calls - 1) == Ok(t.result.value))
      || (t.result.Rethrown? && t.calls == maxRetries && fn(from + t.calls - 1) == Err(t.result.error))
  {
    if maxRetries <= 0 then RetryTrace(NotAttempted, 0, 0)
    else
      var k := FirstSuccess(fn, from, maxRetries);
      if k < maxRetries then RetryTrace(Returned(fn(from + k).value), k + 1, k)
      else RetryTrace(Rethrown(fn(from + maxRetries - 1).error), maxRetries, maxRetries - 1)
  }

  /** A result of a wrapper that made at least one attempt, as the caller's `await` sees it. */
  function AsOutcome<T>(r: RetryResult<T>): (o: Outcome<T>)
    requires !r.NotAttempted?
    ensures o.Ok? <==> r.Returned?
    ensures o.Ok? ==> o.value == r.value
    ensures o.Err? ==> r.Rethrown? && o.error == r.error
  {
    if r.Returned? then Ok(r.value) else Err(r.error)
  }

  /** The counted loop of the source: call, return on success, rethrow on the last failure, else sleep. */
  method Retry<T>(fn: nat -> Outcome<T>, from: nat, maxRetries: int)
    returns (result: RetryResult<T>, calls: nat, sleeps: nat)
    ensures RetryTrace(result, calls, sleeps) == RetryOutcome(fn, from, maxRetries)
  {
    calls, sleeps := 0, 0;
    var i := 0;
    while i < maxRetries
      invariant 0 <= i && (i == 0 || i < maxRetries)
      invariant calls == i && sleeps == i
      invariant forall j :: from <= j < from + i ==> fn(j).Err?
    {
      calls := calls + 1;
      var outcome := fn(from + i);
      if outcome.Ok? {
        return Returned(outcome.value), calls, sleeps;
      }
      if i == maxRetries - 1 {
        return Rethrown(outcome.error), calls, sleeps;
      }
      sleeps := sleeps + 1;  // sleep(delay)
      i := i + 1;
    }
    result := NotAttempted;
  }

  /** k failures followed by a success: the success is returned after exactly k + 1 calls and k sleeps. */
  lemma RetryReturnsFirstSuccess<T>(fn: nat -> Outcome<T>, from: nat, maxRetries: int, k: nat)
    requires k < maxRetries
    requires forall i :: from <= i < from + k ==> fn(i).Err?
    requires fn(from + k).Ok?
    ensures RetryOutcome(fn, from, maxRetries) == RetryTrace(Returned(fn(from + k).value), k + 1, k)
  {
  }

  /** Every attempt fails: exactly maxRetries calls, maxRetries - 1 sleeps, the last error rethrown. */
  lemma RetryRethrowsLastError<T>(fn: nat -> Outcome<T>, from: nat, maxRetries: int)
    requires maxRetries >= 1
    requires forall i :: from <= i < from + maxRetries ==> fn(i).Err?
    ensures RetryOutcome(fn, from, maxRetries)
            == RetryTrace(Rethrown(fn(from + maxRetries - 1).error), maxRetries, maxRetries - 1)
  {
  }
}
