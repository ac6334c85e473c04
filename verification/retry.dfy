/** `retry_with_backoff(retries, initial_delay, backoff_factor)`: the
    `wrapper` it puts around an async function. The function is called up to
    `retries + 1` times; after each failed call but the last the wrapper
    sleeps for the current delay with a +/-10% jitter, then multiplies the
    delay by the backoff factor. Delays are exact reals here. */
module Retry {

  /** One call of the wrapped function: it returns a value or raises. */
  datatype Attempt<T, E> = Ok(value: T) | Err(error: E)

  /** How `wrapper` ends. */
  datatype Retried<T, E> =
    | Returned(value: T)  // the first call that did not raise
    | Reraised(error: E)  // every call raised; the last exception propagates
    | Exhausted           // `range(retries + 1)` was empty: RuntimeError

  /** `b` to the power `k`. */
  function Pow(b: real, k: nat): real {
    if k == 0 then 1.0 else Pow(b, k - 1) * b
  }

  /** The value of `delay` after `k` failed calls, before any jitter: the
      base of the sleep before retry number `k + 1`. */
  function BaseDelay(initialDelay: real, backoffFactor: real, k: nat): real {
    initialDelay * Pow(backoffFactor, k)
  }

  /** `delay + delay * 0.2 * (random.random() - 0.5)`, for a draw `r`. */
  function Jittered(delay: real, r: real): real {
    delay + delay * 0.2 * (r - 0.5)
  }

  /** The wrapper's attempt loop. `attempt(i)` is what call number `i`
      (from 0) does; `random(i)` is the draw made after call `i` fails.
      Returns how it ended, how many calls it made, and the sleeps, in
      order. */
  method RetryWithBackoff<T, E>(retries: int, initialDelay: real, backoffFactor: real,
                                attempt: nat -> Attempt<T, E>, random: nat -> real)
    returns (outcome: Retried<T, E>, calls: nat, sleeps: seq<real>)
    ensures calls <= if retries < 0 then 0 else retries + 1
    ensures outcome == Exhausted <==> retries < 0
    ensures outcome == Exhausted ==> calls == 0 && sleeps == []
    ensures forall i :: 0 <= i < calls - 1 ==> attempt(i).Err?
    ensures outcome.Returned? ==> calls >= 1 && attempt(calls - 1) == Ok(outcome.value)
    ensures outcome.Reraised? ==> calls == retries + 1 && attempt(calls - 1) == Err(outcome.error)
    ensures calls >= 1 ==> |sleeps| == calls - 1
    ensures forall j :: 0 <= j < |sleeps| ==>
              sleeps[j] == Jittered(BaseDelay(initialDelay, backoffFactor, j), random(j))
    ensures retries == 0 ==> calls == 1 && sleeps == []
  {
    var delay := initialDelay;
    sleeps := [];
    calls := 0;
    var i := 0;
    while i < retries + 1
      invariant 0 <= i && (retries < 0 ==> i == 0)
      invariant retries >= 0 ==> i <= retries
      invariant calls == i && |sleeps| == i
      invariant forall j :: 0 <= j < i ==> attempt(j).Err?
      invariant delay == BaseDelay(initialDelay, backoffFactor, i)
      invariant forall j :: 0 <= j < i ==>
                  sleeps[j] == Jittered(BaseDelay(initialDelay, backoffFactor, j), random(j))
    {
      calls := calls + 1;
      match attempt(i) {
        case Ok(v) =>
          return Returned(v), calls, sleeps;
        case Err(e) =>
          if i == retries {
            return Reraised(e), calls, sleeps;
          }
          var jitter := delay * 0.2 * (random(i) - 0.5);
          var currentDelay := delay + jitter;
          sleeps := sleeps + [currentDelay];
          delay := delay * backoffFactor;
      }
      i := i + 1;
    }
    return Exhausted, calls, sleeps;
  }

  /** A draw in [0, 1) puts the sleep in [0.9 * delay, 1.1 * delay) for a
      positive delay. */
  lemma JitterBounds(delay: real, r: real)
    requires delay >= 0.0 && 0.0 <= r < 1.0
    ensures 0.9 * delay <= Jittered(delay, r) <= 1.1 * delay
    ensures delay > 0.0 ==> Jittered(delay, r) < 1.1 * delay
  {
    var above, below := delay * (0.2 * r), delay * (0.2 - 0.2 * r);
    assert Jittered(delay, r) == 0.9 * delay + above;
    assert Jittered(delay, r) == 1.1 * delay - below;
    ProductSign(delay, 0.2 * r);
    ProductSign(delay, 0.2 - 0.2 * r);
  }

  lemma ProductSign(a: real, b: real)
    requires a >= 0.0 && b >= 0.0
    ensures a * b >= 0.0
    ensures a > 0.0 && b > 0.0 ==> a * b > 0.0
  {
  }

  lemma {:induction false} PowAtLeastOne(b: real, k: nat)
    requires b >= 1.0
    ensures Pow(b, k) >= 1.0
  {
    if k > 0 {
      PowAtLeastOne(b, k - 1);
    }
  }

  /** With a factor of at least 1 and a non-negative initial delay, the base
      delays never shrink and never fall below the initial delay. */
  lemma DelaysGrow(initialDelay: real, backoffFactor: real, k: nat)
    requires initialDelay >= 0.0 && backoffFactor >= 1.0
    ensures initialDelay <= BaseDelay(initialDelay, backoffFactor, k)
    ensures BaseDelay(initialDelay, backoffFactor, k) <= BaseDelay(initialDelay, backoffFactor, k + 1)
  {
    PowAtLeastOne(backoffFactor, k);
    var p := Pow(backoffFactor, k);
    assert BaseDelay(initialDelay, backoffFactor, k + 1) == initialDelay * p * backoffFactor;
    assert initialDelay * p <= initialDelay * p * backoffFactor;
  }

  /** The default factor of 2 doubles the base delay on every retry. */
  lemma {:induction false} DoublingSchedule(initialDelay: real, k: nat)
    ensures k >= 1 ==> BaseDelay(initialDelay, 2.0, k) == 2.0 * BaseDelay(initialDelay, 2.0, k - 1)
    ensures BaseDelay(initialDelay, 2.0, k) == initialDelay * (PowOfTwo(k) as real)
  {
    if k >= 1 {
      DoublingSchedule(initialDelay, k - 1);
    }
  }

  function PowOfTwo(k: nat): nat {
    if k == 0 then 1 else 2 * PowOfTwo(k - 1)
  }
}
