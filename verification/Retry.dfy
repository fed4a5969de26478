/** Retrying calls: `retry` and its default parameters (pkg/middleware/retry.go). */
module Retry {
  import opened Options

  datatype Code = DeadlineExceeded | Unavailable | Canceled | OtherCode(name: string)

  /** An error of the library carries a code; any other error does not. */
  datatype Error = Plain(text: string) | Coded(code: Code)

  /** `recoverable` and `parameters` replace the defaults when they are given; `parameters` decides from an error and
      the number of attempts whether to retry, and with which timeout. */
  datatype RetryOptions = RetryOptions(
    maxAttempts: int,
    timeout: int,
    backoff: int,
    recoverable: Option<Error -> bool>,
    parameters: Option<(Error, nat) -> (bool, int)>)

  /** What happens: the outcome of the n-th call under its timeout, and whether the caller gives up after it. */
  datatype World = World(call: (nat, int) -> Option<Error>, done: nat -> bool)

  /** isTimeout. */
  predicate IsTimeout(e: Error) {
    e.Plain? || e.code == DeadlineExceeded || e.code == Unavailable
  }

  predicate Recoverable(o: RetryOptions, e: Error) {
    if o.recoverable.Some? then o.recoverable.value(e) else IsTimeout(e)
  }

  // ---- what should happen

  /** The timeout of the n-th call, counting from one. */
  function TimeoutAt(o: RetryOptions, w: World, n: nat): int
    requires n >= 1
  {
    if n == 1 then o.timeout
    else if o.parameters.None? then TimeoutAt(o, w, n - 1) + o.backoff
    else
      match w.call(n - 1, TimeoutAt(o, w, n - 1))
      case None => o.timeout
      case Some(e) => o.parameters.value(e, n - 1).1
  }

  function OutcomeAt(o: RetryOptions, w: World, n: nat): Option<Error>
    requires n >= 1
  {
    w.call(n, TimeoutAt(o, w, n))
  }

  predicate Retries(o: RetryOptions, e: Error, n: nat) {
    if o.parameters.Some? then o.parameters.value(e, n).0 else Recoverable(o, e) && n != o.maxAttempts
  }

  /** The loop ends with the n-th call. */
  predicate Stops(o: RetryOptions, w: World, n: nat)
    requires n >= 1
  {
    match OutcomeAt(o, w, n)
    case None => true
    case Some(e) => !Retries(o, e, n) || w.done(n)
  }

  /** What is returned then: success, the error of that call, or the cancellation. */
  function ResultAt(o: RetryOptions, w: World, n: nat): Option<Error>
    requires n >= 1
  {
    match OutcomeAt(o, w, n)
    case None => None
    case Some(e) => if Retries(o, e, n) then Some(Coded(Canceled)) else Some(e)
  }

  ghost predicate RunsOn(o: RetryOptions, w: World, n: nat) {
    forall i | 1 <= i <= n :: !Stops(o, w, i)
  }

  // ---- the code

  /** The closure of getRetryWithBackoffParameters. */
  class Backoff {
    const o: RetryOptions
    var timeout: int

    constructor (o: RetryOptions)
      ensures this.o == o && timeout == o.timeout
    {
      this.o, timeout := o, o.timeout;
    }

    method Parameters(e: Error, attempt: nat) returns (retry: bool, next: int)
      modifies this
      ensures retry == (Recoverable(o, e) && attempt != o.maxAttempts)
      ensures if retry then next == timeout == old(timeout) + o.backoff else next == 0 && timeout == old(timeout)
    {
      if !Recoverable(o, e) || attempt == o.maxAttempts {
        return false, 0;
      }
      timeout := timeout + o.backoff;
      return true, timeout;
    }
  }

  /** The loop, followed for at most `limit` calls. `timeouts` lists what each call was given. */
  method Retry(o: RetryOptions, w: World, limit: nat) returns (ended: bool, err: Option<Error>, timeouts: seq<int>)
    ensures |timeouts| <= limit
    ensures forall n | 1 <= n <= |timeouts| :: timeouts[n - 1] == TimeoutAt(o, w, n)
    ensures ended ==> |timeouts| >= 1 && RunsOn(o, w, |timeouts| - 1) && Stops(o, w, |timeouts|) &&
                      err == ResultAt(o, w, |timeouts|)
    ensures !ended ==> |timeouts| == limit && RunsOn(o, w, limit)
    // success exactly when the last call succeeded; otherwise its error, unless the caller gave up
    ensures ended ==> (err.None? <==> OutcomeAt(o, w, |timeouts|).None?) &&
                      (err == OutcomeAt(o, w, |timeouts|) || (err == Some(Coded(Canceled)) && w.done(|timeouts|)))
    ensures ended && err.Some? ==> var e := OutcomeAt(o, w, |timeouts|).value;
      err == Some(if Retries(o, e, |timeouts|) then Coded(Canceled) else e)
    // with the default parameters it ends within MaxAttempts calls
    ensures o.parameters.None? && 1 <= o.maxAttempts <= limit ==> ended && |timeouts| <= o.maxAttempts
  {
    var timeout, attempt := o.timeout, 1;
    var backoff := new Backoff(o);
    timeouts, ended, err := [], false, None;
    while |timeouts| < limit
      invariant attempt == |timeouts| + 1 && |timeouts| <= limit
      invariant timeout == TimeoutAt(o, w, attempt)
      invariant backoff.o == o && (o.parameters.None? ==> backoff.timeout == timeout)
      invariant forall n | 1 <= n <= |timeouts| :: timeouts[n - 1] == TimeoutAt(o, w, n)
      invariant RunsOn(o, w, |timeouts|)
      invariant o.parameters.None? && 1 <= o.maxAttempts ==> |timeouts| < o.maxAttempts
    {
      err := w.call(attempt, timeout);
      timeouts := timeouts + [timeout];
      if err.None? {
        return true, None, timeouts;
      }
      var retry: bool;
      if o.parameters.Some? {
        var next := o.parameters.value(err.value, attempt);
        retry, timeout := next.0, next.1;
      } else {
        retry, timeout := backoff.Parameters(err.value, attempt);
      }
      if !retry {
        return true, err, timeouts;
      }
      if w.done(attempt) {
        return true, Some(Coded(Canceled)), timeouts;
      }
      attempt := attempt + 1;
    }
    return false, None, timeouts;
  }

  // ---- the promises

  /** With the default parameters the timeouts grow by the backoff. */
  lemma {:induction false} Schedule(o: RetryOptions, w: World, n: nat)
    requires n >= 1 && o.parameters.None?
    ensures TimeoutAt(o, w, n) == o.timeout + (n - 1) * o.backoff
  {
    if n > 1 {
      Schedule(o, w, n - 1);
    }
  }

  /** The loop returns success exactly when its last call succeeded, and its error otherwise is that call's, unless the
      caller gave up. */
  lemma SuccessIffLast(o: RetryOptions, w: World, n: nat)
    requires n >= 1 && Stops(o, w, n)
    ensures ResultAt(o, w, n) == None <==> OutcomeAt(o, w, n) == None
    ensures ResultAt(o, w, n) == OutcomeAt(o, w, n) || (ResultAt(o, w, n) == Some(Coded(Canceled)) && w.done(n))
    ensures OutcomeAt(o, w, n).Some? && Retries(o, OutcomeAt(o, w, n).value, n) ==>
      ResultAt(o, w, n) == Some(Coded(Canceled))
  {
  }

  /** Every call fails with `e` and nobody gives up. */
  function AlwaysFailing(e: Error): World {
    World((n, timeout) => Some(e), n => false)
  }

  /** The number of calls is bounded, whatever happens, exactly when MaxAttempts is at least one or no error can be
      recovered from; the bound is then MaxAttempts, or one. In particular zero does not mean no retries. */
  lemma BoundedIff(o: RetryOptions, bound: nat)
    requires o.parameters.None?
    ensures (forall w :: !RunsOn(o, w, bound)) <==>
            (1 <= o.maxAttempts <= bound || (bound >= 1 && forall e :: !Recoverable(o, e)))
  {
    if 1 <= o.maxAttempts <= bound {
      forall w ensures !RunsOn(o, w, bound) {
        assert Stops(o, w, o.maxAttempts);
      }
    } else if bound >= 1 && forall e :: !Recoverable(o, e) {
      forall w ensures !RunsOn(o, w, bound) {
        assert Stops(o, w, 1);
      }
    } else if bound == 0 {
      assert RunsOn(o, AlwaysFailing(Plain("")), 0);
    } else {
      var e :| Recoverable(o, e);
      var w := AlwaysFailing(e);
      forall n: nat | 1 <= n <= bound ensures !Stops(o, w, n) {
        assert OutcomeAt(o, w, n) == Some(e);
      }
      assert RunsOn(o, w, bound);
    }
  }

  /** By default an error is retried when it carries no code, or says that the deadline was exceeded or that no server
      was available, unless MaxAttempts calls have been made. */
  lemma RetriedByDefault(o: RetryOptions, e: Error, n: nat)
    requires o.parameters.None? && o.recoverable.None?
    ensures Retries(o, e, n) <==>
      n != o.maxAttempts && (e.Plain? || e == Coded(DeadlineExceeded) || e == Coded(Unavailable))
  {
  }

  /** With functions of the caller's own, an error is retried exactly when they say so. */
  lemma RetriedByChoice(o: RetryOptions, e: Error, n: nat)
    ensures o.parameters.Some? ==> (Retries(o, e, n) <==> o.parameters.value(e, n).0)
    ensures o.parameters.None? && o.recoverable.Some? ==>
      (Retries(o, e, n) <==> o.recoverable.value(e) && n != o.maxAttempts)
  {
  }

  /** With parameters of the caller's own, the first call gets Timeout and every other one what they said after the
      error of the call before. */
  lemma ScheduleByChoice(o: RetryOptions, w: World, n: nat, e: Error)
    requires n >= 1 && o.parameters.Some? && OutcomeAt(o, w, n) == Some(e)
    ensures TimeoutAt(o, w, 1) == o.timeout && TimeoutAt(o, w, n + 1) == o.parameters.value(e, n).1
  {
  }

  /** The loop goes on after a call exactly when the call failed, its error is retried and the caller has not given
      up. */
  lemma StopsIff(o: RetryOptions, w: World, n: nat)
    requires n >= 1
    ensures !Stops(o, w, n) <==> exists e :: w.call(n, TimeoutAt(o, w, n)) == Some(e) && Retries(o, e, n) && !w.done(n)
  {
  }
}
