/**
 * `retryWithBackoff`: call an operation up to `maxRetries` times, giving up at
 * once on a credential error and waiting 500 * 3^attempt milliseconds after
 * every other failure that is not the last allowed attempt.
 *
 * The operation is given as the outcome of each successive call; the waits
 * are recorded rather than slept.
 */
module RetryBackoff {

  /** A thrown error: its `Code` property ("" when it has none) and its message. */
  datatype Error = Error(code: string, message: string)

  /** What one call of the operation did. */
  datatype CallOutcome<T> = Returned(value: T) | Threw(error: Error)

  /**
   * How the retrying call settles: with the first value returned, with
   * `undefined` when no attempt was allowed, or by rethrowing an error.
   */
  datatype Settled<T> = Completed(value: T) | NoAttempt | Rethrown(error: Error)

  /** The settled result, how many times the operation was called, and each wait in milliseconds. */
  datatype RetryRun<T> = RetryRun(result: Settled<T>, calls: nat, delays: seq<nat>)

  const BaseDelayMs: nat := 500
  const Multiplier: nat := 3

  /**
   * Errors that retrying cannot cure: the access key or the secret is wrong.
   * An error without a `Code` (anything but an S3 error) is always retried.
   */
  predicate IsCredentialError(e: Error)
    ensures e.code == "" ==> !IsCredentialError(e)
  {
    e.code == "InvalidAccessKeyId" || e.code == "InvalidSecretAccessKey"
  }

  /** A failure after which another attempt is made if the budget allows. */
  predicate IsTransient<T>(o: CallOutcome<T>) {
    o.Threw? && !IsCredentialError(o.error)
  }

  function Pow(b: nat, e: nat): nat {
    if e == 0 then 1 else b * Pow(b, e - 1)
  }

  /**
   * The wait after a transient failure of attempt `attempt` (counted from 0):
   * 500 ms after the first, and three times the previous wait after each later one.
   */
  function Backoff(attempt: nat): (d: nat)
    ensures attempt == 0 ==> d == 500
    ensures d >= 500
  {
    PowPositive(Multiplier, attempt);
    BaseDelayMs * Pow(Multiplier, attempt)
  }

  lemma {:induction false} PowPositive(b: nat, e: nat)
    requires b > 0
    ensures Pow(b, e) > 0
  {
    if e > 0 {
      PowPositive(b, e - 1);
    }
  }

  /** Each wait is three times the one before it. */
  lemma BackoffTriples(attempt: nat)
    ensures Backoff(attempt + 1) == 3 * Backoff(attempt)
  {
  }

  /** The waits taken after `n` transient failures: 500, 1500, 4500, ... */
  function BackoffSchedule(n: nat): (s: seq<nat>)
    ensures |s| == n
    ensures n > 0 ==> s[0] == 500
    ensures forall i :: 0 < i < n ==> s[i] == 3 * s[i - 1]
  {
    seq(n, i requires 0 <= i < n => Backoff(i))
  }

  /**
   * The run from attempt index `attempt` on, as the loop performs it: a call
   * is made exactly when budget is left, and every call but the last is
   * followed by one wait.
   */
  function RetryFrom<T>(fn: nat -> CallOutcome<T>, maxRetries: int, attempt: nat): (r: RetryRun<T>)
    ensures r.calls == 0 <==> attempt >= maxRetries
    ensures |r.delays| == if r.calls == 0 then 0 else r.calls - 1
    decreases if attempt < maxRetries then maxRetries - attempt else 0
  {
    if attempt >= maxRetries then RetryRun(NoAttempt, 0, [])
    else
      match fn(attempt)
      case Returned(v) => RetryRun(Completed(v), 1, [])
      case Threw(e) =>
        if IsCredentialError(e) || attempt == maxRetries - 1 then RetryRun(Rethrown(e), 1, [])
        else
          var rest := RetryFrom(fn, maxRetries, attempt + 1);
          RetryRun(rest.result, rest.calls + 1, [Backoff(attempt)] + rest.delays)
  }

  /**
   * The shape of every run from `attempt` on. With budget left it makes
   * between one call and the rest of the budget, waiting once fewer; each
   * wait is 500 * 3^attempt; every call but the last was a transient
   * failure; the last one returned, threw a credential error, or was the
   * final attempt allowed. With no budget it calls nothing.
   */
  lemma {:induction false} RetryShape<T>(fn: nat -> CallOutcome<T>, maxRetries: int, attempt: nat)
    ensures var r := RetryFrom(fn, maxRetries, attempt);
      && (attempt >= maxRetries ==> r == RetryRun(NoAttempt, 0, []))
      && (attempt < maxRetries ==>
            && 1 <= r.calls <= maxRetries - attempt
            && |r.delays| == r.calls - 1
            && !r.result.NoAttempt?)
      && (forall i :: 0 <= i < |r.delays| ==> r.delays[i] == Backoff(attempt + i))
      && (forall k :: attempt <= k < attempt + |r.delays| ==> IsTransient(fn(k)))
      && (r.result.Completed? ==> fn(attempt + r.calls - 1) == Returned(r.result.value))
      && (r.result.Rethrown? ==>
            && fn(attempt + r.calls - 1) == Threw(r.result.error)
            && (IsCredentialError(r.result.error) || attempt + r.calls == maxRetries))
    decreases if attempt < maxRetries then maxRetries - attempt else 0
  {
    if attempt < maxRetries && fn(attempt).Threw? {
      var e := fn(attempt).error;
      if !IsCredentialError(e) && attempt != maxRetries - 1 {
        RetryShape(fn, maxRetries, attempt + 1);
        var rest := RetryFrom(fn, maxRetries, attempt + 1);
        var r := RetryFrom(fn, maxRetries, attempt);
        assert r.delays == [Backoff(attempt)] + rest.delays;
        forall i | 0 <= i < |r.delays| ensures r.delays[i] == Backoff(attempt + i) {
          if i > 0 { assert r.delays[i] == rest.delays[i - 1]; }
        }
      }
    }
  }

  /**
   * The whole run, starting at attempt 0: at most `maxRetries` calls, none
   * when the budget is zero or less, and otherwise the first call's outcome
   * decides the run when it returns or throws a credential error.
   */
  function Retry<T>(fn: nat -> CallOutcome<T>, maxRetries: int): (r: RetryRun<T>)
    ensures r.calls <= if maxRetries < 0 then 0 else maxRetries
    ensures r.result.NoAttempt? <==> maxRetries <= 0
    ensures maxRetries > 0 && !IsTransient(fn(0)) ==>
      r.calls == 1 && r.delays == [] &&
      r.result == if fn(0).Returned? then Completed(fn(0).value) else Rethrown(fn(0).error)
  {
    RetryShape(fn, maxRetries, 0);
    RetryFrom(fn, maxRetries, 0)
  }

  /**
   * The loop of `retryWithBackoff`. `fn(k)` is what the k-th call (from 0)
   * does; the method returns how it settled, the number of calls made and
   * the waits taken, in order.
   */
  method RetryWithBackoff<T>(fn: nat -> CallOutcome<T>, maxRetries: int)
    returns (result: Settled<T>, calls: nat, delays: seq<nat>)
    ensures RetryRun(result, calls, delays) == Retry(fn, maxRetries)
  {
    calls, delays := 0, [];
    var attempt: nat := 0;
    while attempt < maxRetries
      invariant attempt == calls == |delays|
      invariant var rest := RetryFrom(fn, maxRetries, attempt);
        Retry(fn, maxRetries) == RetryRun(rest.result, attempt + rest.calls, delays + rest.delays)
      decreases maxRetries - attempt
    {
      ghost var here := RetryFrom(fn, maxRetries, attempt);
      var outcome := fn(attempt);
      calls := calls + 1;
      match outcome {
        case Returned(v) =>
          assert here == RetryRun(Completed(v), 1, []);
          return Completed(v), calls, delays;
        case Threw(e) =>
          if IsCredentialError(e) || attempt == maxRetries - 1 {
            assert here == RetryRun(Rethrown(e), 1, []);
            return Rethrown(e), calls, delays;
          }
          var delayMs := BaseDelayMs * Pow(Multiplier, attempt);
          ghost var next := RetryFrom(fn, maxRetries, attempt + 1);
          assert here == RetryRun(next.result, next.calls + 1, [delayMs] + next.delays);
          assert delays + here.delays == (delays + [delayMs]) + next.delays;
          delays := delays + [delayMs];
      }
      attempt := attempt + 1;
    }
    result := NoAttempt;
  }

  /**
   * When the first `j` calls fail transiently and call `j` is decisive (it
   * returns, throws a credential error, or is the last attempt allowed), the
   * run makes `j + 1` calls, settles with call `j`'s outcome and waits
   * exactly 500 * 3^0, ..., 500 * 3^(j-1) milliseconds.
   */
  lemma {:induction false} DecisiveCall<T>(fn: nat -> CallOutcome<T>, maxRetries: int, j: nat)
    requires j < maxRetries
    requires forall k :: 0 <= k < j ==> IsTransient(fn(k))
    requires !IsTransient(fn(j)) || j == maxRetries - 1
    ensures Retry(fn, maxRetries) == RetryRun(
      if fn(j).Returned? then Completed(fn(j).value) else Rethrown(fn(j).error),
      j + 1,
      BackoffSchedule(j))
  {
    DecisiveCallFrom(fn, maxRetries, j, 0);
  }

  /** `DecisiveCall` from any attempt index up to `j`: the inductive step. */
  lemma {:induction false} DecisiveCallFrom<T>(fn: nat -> CallOutcome<T>, maxRetries: int, j: nat, attempt: nat)
    requires attempt <= j < maxRetries
    requires forall k :: attempt <= k < j ==> IsTransient(fn(k))
    requires !IsTransient(fn(j)) || j == maxRetries - 1
    ensures var r := RetryFrom(fn, maxRetries, attempt);
      && r.result == (if fn(j).Returned? then Completed(fn(j).value) else Rethrown(fn(j).error))
      && r.calls == j + 1 - attempt
      && r.delays == BackoffSchedule(j)[attempt..]
    decreases j - attempt
  {
    if attempt < j {
      DecisiveCallFrom(fn, maxRetries, j, attempt + 1);
      assert BackoffSchedule(j)[attempt..] == [Backoff(attempt)] + BackoffSchedule(j)[attempt + 1..];
    }
  }

  /** A budget of zero or less never calls the operation and settles with `undefined`. */
  lemma NoBudgetNoCalls<T>(fn: nat -> CallOutcome<T>, maxRetries: int)
    requires maxRetries <= 0
    ensures Retry(fn, maxRetries) == RetryRun(NoAttempt, 0, [])
  {
  }

  /** A credential error on the first call ends the run after that one call, whatever the budget. */
  lemma CredentialErrorAbortsAtOnce<T>(fn: nat -> CallOutcome<T>, maxRetries: int)
    requires maxRetries > 0 && fn(0).Threw? && IsCredentialError(fn(0).error)
    ensures Retry(fn, maxRetries) == RetryRun(Rethrown(fn(0).error), 1, [])
  {
  }

  /** With three attempts, two transient failures and then a value: that value, after waits of 500 and 1500 ms. */
  lemma TwoFailuresThenSuccess<T>(v: T)
    ensures var fn := (k: nat) => if k < 2 then Threw(Error("", "timeout")) else Returned(v);
      Retry(fn, 3) == RetryRun(Completed(v), 3, [500, 1500])
  {
  }

  /** When every allowed attempt fails transiently, the last error is rethrown after `maxRetries` calls. */
  lemma ExhaustedBudgetRethrowsLast<T>(fn: nat -> CallOutcome<T>, maxRetries: nat)
    requires maxRetries > 0
    requires forall k :: 0 <= k < maxRetries ==> IsTransient(fn(k))
    ensures var last := fn(maxRetries - 1);
      last.Threw? && Retry(fn, maxRetries) == RetryRun(Rethrown(last.error), maxRetries, BackoffSchedule(maxRetries - 1))
  {
    DecisiveCall(fn, maxRetries, maxRetries - 1);
  }
}
