/** The retry decorator (src/utils/retry.py). Instead of calling a function
    and sleeping, the model takes the outcome of each call as an oracle and
    records every sleep and every `on_retry` callback in a trace. */
module Retry {

  /** How the k-th call (counted from 1) ends: a value, or an exception that
      is (`listed`) or is not one of the types the decorator catches. */
  datatype Attempt<V> = Success(value: V) | Fail(error: string, listed: bool)

  /** The decorator's arguments; `onRetry` says whether a callback was given. */
  datatype Config = Config(maxAttempts: int, baseDelay: real, maxDelay: real, exponential: bool, onRetry: bool)

  const DefaultConfig := Config(3, 2.0, 60.0, true, false)

  /** `simple_retry(max_attempts, delay)`: constant delay, no callback. */
  function SimpleRetry(maxAttempts: int, delay: real): (c: Config)
    ensures c.maxAttempts == maxAttempts && c.baseDelay == delay && !c.exponential && !c.onRetry
    ensures forall i: nat :: Delay(c, i) == delay
  {
    Config(maxAttempts, delay, 60.0, false, false)
  }

  /** How the wrapped call ends. `SleepRejected` is the `ValueError` that
      `time.sleep` raises for a negative delay. */
  datatype Outcome<V> = Returned(value: V) | Reraised(error: string) | SleepRejected | ExceededAttempts

  datatype Trace<V> = Trace(calls: nat, sleeps: seq<real>, callbacks: seq<nat>, outcome: Outcome<V>)

  /** The delay before the (i+1)-th retry: `base_delay` first, then doubled
      and capped in exponential mode, or `base_delay` again in linear mode. */
  function Delay(c: Config, i: nat): real {
    if i == 0 then c.baseDelay
    else if c.exponential then Min(2.0 * Delay(c, i - 1), c.maxDelay)
    else c.baseDelay
  }

  function Min(a: real, b: real): real { if a <= b then a else b }

  /** 1, 2, ..., n. */
  function Upto(n: nat): (r: seq<nat>)
    ensures |r| == n && forall i :: 0 <= i < n ==> r[i] == i + 1
  {
    if n == 0 then [] else Upto(n - 1) + [n]
  }

  /** x * 2^n, written as n doublings. */
  function Doubled(x: real, n: nat): real {
    if n == 0 then x else 2.0 * Doubled(x, n - 1)
  }

  /** The first n delays, in order. */
  function Delays(c: Config, n: nat): (r: seq<real>)
    ensures |r| == n && forall i :: 0 <= i < n ==> r[i] == Delay(c, i)
  {
    if n == 0 then [] else Delays(c, n - 1) + [Delay(c, n - 1)]
  }

  lemma DelayNext(c: Config, i: nat)
    ensures Delay(c, i + 1) == if c.exponential then Min(Delay(c, i) * 2.0, c.maxDelay) else c.baseDelay
  {
  }

  /** The wrapper loop. */
  method RetryWithBackoff<V>(c: Config, call: nat -> Attempt<V>) returns (t: Trace<V>)
    ensures c.maxAttempts <= 0 <==> t.outcome.ExceededAttempts?
    ensures c.maxAttempts <= 0 ==> t == Trace(0, [], [], ExceededAttempts)
    ensures c.maxAttempts > 0 ==> 1 <= t.calls <= c.maxAttempts
    ensures t.calls > 0 ==> |t.sleeps| == t.calls - 1
    ensures forall i :: 0 <= i < |t.sleeps| ==> t.sleeps[i] == Delay(c, i) >= 0.0
    ensures forall k :: 1 <= k < t.calls ==> call(k).Fail? && call(k).listed
    ensures t.calls > 0 && call(t.calls).Success? ==> t.outcome == Returned(call(t.calls).value)
    ensures t.calls > 0 && call(t.calls).Fail? && !call(t.calls).listed ==> t.outcome == Reraised(call(t.calls).error)
    ensures t.calls > 0 && call(t.calls).Fail? && call(t.calls).listed ==>
              (t.calls == c.maxAttempts && t.outcome == Reraised(call(t.calls).error))
              || (t.calls < c.maxAttempts && t.outcome.SleepRejected? && Delay(c, t.calls - 1) < 0.0)
    ensures t.callbacks == if !c.onRetry || t.calls == 0 then [] else if t.outcome.SleepRejected? then Upto(t.calls) else Upto(t.calls - 1)
  {
    var attempt := 0;
    var delay := c.baseDelay;
    var sleeps: seq<real> := [];
    var callbacks: seq<nat> := [];
    while attempt < c.maxAttempts
      invariant 0 <= attempt && (c.maxAttempts > 0 ==> attempt < c.maxAttempts)
      invariant |sleeps| == attempt && delay == Delay(c, attempt)
      invariant sleeps == Delays(c, attempt) && forall i :: 0 <= i < attempt ==> sleeps[i] >= 0.0
      invariant forall k :: 1 <= k <= attempt ==> call(k).Fail? && call(k).listed
      invariant callbacks == if c.onRetry then Upto(attempt) else []
      decreases c.maxAttempts - attempt
    {
      var outcome := call(attempt + 1);
      match outcome {
        case Success(v) =>
          return Trace(attempt + 1, sleeps, callbacks, Returned(v));
        case Fail(e, listed) =>
          if !listed {
            return Trace(attempt + 1, sleeps, callbacks, Reraised(e));
          }
          attempt := attempt + 1;
          if attempt >= c.maxAttempts {
            return Trace(attempt, sleeps, callbacks, Reraised(e));
          }
          if c.onRetry {
            callbacks := callbacks + [attempt];
          }
          if delay < 0.0 {
            return Trace(attempt, sleeps, callbacks, SleepRejected);
          }
          sleeps := sleeps + [delay];
          DelayNext(c, attempt - 1);
          delay := if c.exponential then Min(delay * 2.0, c.maxDelay) else c.baseDelay;
      }
    }
    return Trace(0, [], [], ExceededAttempts);
  }

  /** With a non-negative cap, the i-th exponential delay (i >= 1) is
      min(base_delay * 2^i, max_delay): only the first one escapes the cap. */
  lemma {:induction false} ExponentialClosedForm(c: Config, i: nat)
    requires c.exponential && c.maxDelay >= 0.0 && i >= 1
    ensures Delay(c, i) == Min(Doubled(c.baseDelay, i), c.maxDelay)
  {
    if i > 1 {
      ExponentialClosedForm(c, i - 1);
    }
  }

  /** When 0 <= base_delay <= max_delay the delays never decrease and stay
      within [base_delay, max_delay]. */
  lemma {:induction false} DelaysNonDecreasing(c: Config, i: nat)
    requires c.exponential && 0.0 <= c.baseDelay <= c.maxDelay
    ensures c.baseDelay <= Delay(c, i) <= Delay(c, i + 1) <= c.maxDelay
  {
    if i > 0 {
      DelaysNonDecreasing(c, i - 1);
    }
  }

  /** Without `base_delay <= max_delay` the schedule can shrink: the first
      delay is not capped, the second is. */
  lemma FirstDelayNotCapped()
    ensures var c := Config(3, 100.0, 60.0, true, false);
            Delay(c, 0) == 100.0 && Delay(c, 1) == 60.0 && Delay(c, 0) > c.maxDelay
  {
  }

  /** The default schedule is 2, 4 seconds for the three attempts. */
  lemma DefaultSchedule()
    ensures Delay(DefaultConfig, 0) == 2.0 && Delay(DefaultConfig, 1) == 4.0
    ensures Delay(DefaultConfig, 5) == 60.0
  {
  }
}
