/** The Redis client's `retry_strategy` (server/config/redis.js): after a lost connection,
    whether to give up with an error, stop retrying, or retry after a delay. */
module RedisRetry {
  import opened Wrappers

  /** What the client passes to the strategy: the code of the error that closed the
      connection (if any), the milliseconds spent retrying so far, and the attempt number. */
  datatype RetryOptions = RetryOptions(errorCode: Option<string>, totalRetryTime: nat, attempt: int)

  /** What the strategy returns: an Error (give up and report it), `undefined` (stop
      retrying), or the number of milliseconds to wait before the next attempt. */
  datatype RetryDecision = GiveUp(message: string) | Stop | RetryAfter(ms: int)

  const RefusedMessage := "Redis server connection refused"
  const ExhaustedMessage := "Retry time exhausted"

  /** One hour in milliseconds. */
  const MaxRetryTime := 1000 * 60 * 60
  const MaxAttempts := 10
  const DelayStep := 100
  const MaxDelay := 3000

  function Min(a: int, b: int): int {
    if a <= b then a else b
  }

  function RetryStrategy(o: RetryOptions): (d: RetryDecision)
    ensures o.errorCode == Some("ECONNREFUSED") <==> d == GiveUp(RefusedMessage)
    ensures o.errorCode != Some("ECONNREFUSED") && o.totalRetryTime > MaxRetryTime <==> d == GiveUp(ExhaustedMessage)
    ensures d == Stop <==> o.errorCode != Some("ECONNREFUSED") && o.totalRetryTime <= MaxRetryTime && o.attempt > MaxAttempts
    ensures d.RetryAfter? ==> d.ms <= MaxDelay && d.ms == Min(o.attempt * DelayStep, MaxDelay)
  {
    if o.errorCode == Some("ECONNREFUSED") then GiveUp(RefusedMessage)
    else if o.totalRetryTime > MaxRetryTime then GiveUp(ExhaustedMessage)
    else if o.attempt > MaxAttempts then Stop
    else RetryAfter(Min(o.attempt * DelayStep, MaxDelay))
  }

  /** A refused connection is reported whatever the time spent and the attempt number. */
  lemma RefusedComesFirst(totalRetryTime: nat, attempt: int)
    ensures RetryStrategy(RetryOptions(Some("ECONNREFUSED"), totalRetryTime, attempt)) == GiveUp(RefusedMessage)
  {
  }

  /** The client retries exactly on attempts up to the tenth, within the hour, after any error
      other than a refused connection; the wait is then 100 ms per attempt, capped at 3 s. */
  lemma RetriesExactly(o: RetryOptions)
    ensures RetryStrategy(o).RetryAfter?
            <==> o.errorCode != Some("ECONNREFUSED") && o.totalRetryTime <= MaxRetryTime && o.attempt <= MaxAttempts
    ensures RetryStrategy(o).RetryAfter? && 1 <= o.attempt ==> 100 <= RetryStrategy(o).ms <= 1000
  {
  }

  /** A later attempt under the same conditions never waits less. */
  lemma DelayNonDecreasing(code: Option<string>, t: nat, a1: int, a2: int)
    requires a1 <= a2
    requires RetryStrategy(RetryOptions(code, t, a1)).RetryAfter?
    requires RetryStrategy(RetryOptions(code, t, a2)).RetryAfter?
    ensures RetryStrategy(RetryOptions(code, t, a1)).ms <= RetryStrategy(RetryOptions(code, t, a2)).ms
  {
  }

  /** Once the attempts run out the client stops, and stays stopped for every later attempt. */
  lemma StopIsFinal(code: Option<string>, t: nat, a1: int, a2: int)
    requires a1 <= a2
    requires RetryStrategy(RetryOptions(code, t, a1)) == Stop
    ensures RetryStrategy(RetryOptions(code, t, a2)) == Stop
  {
  }
}
