/**
 * The retry delay: `exponentialBackOff(attempts) = min(100 * attempts^2, 60000)`
 * milliseconds, and the delay a retry actually waits once the caller's and
 * the retry helper's increments are both applied.
 */
module BackOff {

  /** The cap on every delay, in milliseconds. */
  const MAX_DELAY: int := 60000

  /** `exponentialBackOff(attempts)`. */
  function ExponentialBackOff(attempts: int): (d: int)
    ensures 0 <= d <= MAX_DELAY
  {
    var raw := 100 * attempts * attempts;
    if raw < MAX_DELAY then raw else MAX_DELAY
  }

  /**
   * The delay the retry helper waits when it is handed `attempts`: it
   * increments its argument before computing the back-off.
   */
  function RetryDelay(attempts: int): (d: int)
    ensures 0 <= d <= MAX_DELAY
  {
    ExponentialBackOff(attempts + 1)
  }

  lemma SquareMonotone(a: int, b: int)
    requires 0 <= a <= b
    ensures a * a <= b * b
  {
    assert a * a <= a * b by { MulLeft(a, a, b); }
    assert a * b <= b * b by { MulLeft(b, a, b); }
  }

  lemma MulLeft(k: int, x: int, y: int)
    requires 0 <= k && x <= y
    ensures k * x <= k * y
  {
    assert k * y - k * x == k * (y - x);
  }

  /** No waiting before the first attempt, and the delay never shrinks as attempts grow. */
  lemma BackOffMonotone(a: int, b: int)
    requires 0 <= a <= b
    ensures ExponentialBackOff(0) == 0
    ensures ExponentialBackOff(a) <= ExponentialBackOff(b)
  {
    SquareMonotone(a, b);
    assert 100 * a * a == 100 * (a * a) && 100 * b * b == 100 * (b * b);
  }

  /** The delay is exactly `100 * a^2` up to 24 attempts and the cap from 25 attempts on. */
  lemma BackOffExact(a: int)
    requires a >= 0
    ensures a <= 24 ==> ExponentialBackOff(a) == 100 * a * a
    ensures a >= 25 ==> ExponentialBackOff(a) == MAX_DELAY
  {
    assert 100 * a * a == 100 * (a * a);
    if a <= 24 {
      SquareMonotone(a, 24);
    } else {
      SquareMonotone(25, a);
    }
  }
}
