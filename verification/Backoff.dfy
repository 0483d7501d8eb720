/**
 How long a failed task waits for its retry.  Durations are in seconds, as the queue's settings are;
 a time of the store is in whole microseconds.
 */
module Backoff {
  import opened Prelude

  /** The first delay and the largest one. */
  datatype Policy = Policy(base: real, max: real)

  /** What the queue insists on when it is made. */
  predicate Sound(p: Policy) {
    p.base >= 0.0 && p.max >= 0.0 && (p.max != 0.0 ==> p.base <= p.max)
  }

  function PowerOfTwo(n: nat): (r: nat)
    ensures r >= 1
  {
    if n == 0 then 1 else 2 * PowerOfTwo(n - 1)
  }

  function Min(a: real, b: real): real { if a <= b then a else b }

  function Max(a: real, b: real): real { if a >= b then a else b }

  /** The delay before it is spread out: doubled with every attempt, up to the largest. */
  function Plain(p: Policy, attempt: int): real {
    Min(p.base * PowerOfTwo(if attempt >= 1 then attempt - 1 else 0) as real, p.max)
  }

  /** A random factor spreads retries out. */
  function Spread(x: real, jitter: real): real {
    if x > 0.0 then x * jitter else x
  }

  predicate Jitter(x: real) { 0.9 <= x <= 1.1 }

  /** The handler may ask for a longer delay. */
  function AtLeast(d: real, retryAfter: Option<real>): real {
    if retryAfter.Some? then Max(d, retryAfter.value) else d
  }

  function RetryDelay(p: Policy, attempt: int, jitter: real, retryAfter: Option<real>): real {
    AtLeast(Spread(Plain(p, attempt), jitter), retryAfter)
  }

  function Shortest(p: Policy, attempt: int, retryAfter: Option<real>): real {
    AtLeast(0.9 * Plain(p, attempt), retryAfter)
  }

  function Longest(p: Policy, attempt: int, retryAfter: Option<real>): real {
    AtLeast(1.1 * Plain(p, attempt), retryAfter)
  }

  /** The first delay is the base; each later one is twice the one before, or the largest. */
  lemma PlainDoubles(p: Policy, attempt: nat)
    requires Sound(p) && attempt >= 1
    ensures Plain(p, 1) == Min(p.base, p.max)
    ensures Plain(p, attempt + 1) == Min(2.0 * Plain(p, attempt), p.max)
    ensures 0.0 <= Plain(p, attempt) <= Plain(p, attempt + 1) <= p.max
  {
    var n := PowerOfTwo(attempt - 1);
    assert PowerOfTwo(attempt) == 2 * n;
    assert p.base * (2 * n) as real == 2.0 * (p.base * n as real);
  }

  lemma PlainIsNotNegative(p: Policy, attempt: int)
    requires Sound(p)
    ensures 0.0 <= Plain(p, attempt) <= p.max
  {
  }

  lemma SpreadWithin(x: real, jitter: real)
    requires x >= 0.0 && Jitter(jitter)
    ensures 0.9 * x <= Spread(x, jitter) <= 1.1 * x
  {
    if x > 0.0 {
      ScaleMonotone(0.9, jitter, x);
      ScaleMonotone(jitter, 1.1, x);
      assert x * jitter <= x * 1.1 == 1.1 * x;
    }
  }

  lemma ScaleMonotone(a: real, b: real, x: real)
    requires x >= 0.0 && a <= b
    ensures x * a <= x * b
  {
    NotNegative(x, b - a);
    assert x * (b - a) == x * b - x * a;
  }

  lemma NotNegative(a: real, x: real)
    requires a >= 0.0 && x >= 0.0
    ensures a * x >= 0.0
  {
  }

  lemma AtLeastMonotone(a: real, b: real, retryAfter: Option<real>)
    requires a <= b
    ensures AtLeast(a, retryAfter) <= AtLeast(b, retryAfter)
  {
  }

  lemma DelayIsInWindow(p: Policy, attempt: int, jitter: real, retryAfter: Option<real>)
    requires Sound(p) && Jitter(jitter)
    ensures 0.0 <= Shortest(p, attempt, retryAfter)
    ensures Shortest(p, attempt, retryAfter) <= RetryDelay(p, attempt, jitter, retryAfter)
      <= Longest(p, attempt, retryAfter)
  {
    PlainIsNotNegative(p, attempt);
    WindowAround(Plain(p, attempt), jitter, retryAfter);
  }

  lemma WindowAround(x: real, jitter: real, retryAfter: Option<real>)
    requires x >= 0.0 && Jitter(jitter)
    ensures 0.0 <= AtLeast(0.9 * x, retryAfter) <= AtLeast(Spread(x, jitter), retryAfter)
      <= AtLeast(1.1 * x, retryAfter)
  {
    SpreadWithin(x, jitter);
    AtLeastMonotone(0.9 * x, Spread(x, jitter), retryAfter);
    AtLeastMonotone(Spread(x, jitter), 1.1 * x, retryAfter);
  }

  lemma Quotient(d: real, x: real)
    requires x > 0.0 && 0.9 * x <= d <= 1.1 * x
    ensures 0.9 <= d / x <= 1.1 && (d / x) * x == d
  {
    var q := d / x;
    assert q * x == d;
    if q < 0.9 { Below(q, 0.9, x); }
    if q > 1.1 { Below(1.1, q, x); }
  }

  lemma Below(a: real, b: real, x: real)
    requires x > 0.0 && a < b
    ensures a * x < b * x
  {
    assert (b - a) * x > 0.0;
    assert (b - a) * x == b * x - a * x;
  }

  lemma SomeJitter(p: Policy, attempt: int, retryAfter: Option<real>, d: real) returns (jitter: real)
    requires Sound(p) && Shortest(p, attempt, retryAfter) <= d <= Longest(p, attempt, retryAfter)
    ensures Jitter(jitter) && RetryDelay(p, attempt, jitter, retryAfter) == d
  {
    var x := Plain(p, attempt);
    PlainIsNotNegative(p, attempt);
    jitter := 1.0;
    if x > 0.0 && d <= 1.1 * x {
      Quotient(d, x);
      jitter := d / x;
    } else {
      assert x * jitter == x;
    }
  }

  ghost predicate Possible(p: Policy, attempt: int, retryAfter: Option<real>, d: real) {
    exists jitter :: Jitter(jitter) && RetryDelay(p, attempt, jitter, retryAfter) == d
  }

  /** The delays a policy can give are exactly those of its window. */
  lemma DelayWindow(p: Policy, attempt: int, retryAfter: Option<real>, d: real)
    requires Sound(p)
    ensures Possible(p, attempt, retryAfter, d)
      <==> Shortest(p, attempt, retryAfter) <= d <= Longest(p, attempt, retryAfter)
  {
    if Possible(p, attempt, retryAfter, d) {
      var jitter :| Jitter(jitter) && RetryDelay(p, attempt, jitter, retryAfter) == d;
      DelayIsInWindow(p, attempt, jitter, retryAfter);
    }
    if Shortest(p, attempt, retryAfter) <= d <= Longest(p, attempt, retryAfter) {
      var jitter := SomeJitter(p, attempt, retryAfter, d);
      assert Jitter(jitter) && RetryDelay(p, attempt, jitter, retryAfter) == d;
    }
  }

  // ---------- In the store's time ----------

  function Micros(seconds: real): int { (seconds * 1000000.0).Floor }

  /** When the retry may run, from the clock as it was read before the script. */
  function RunAt(readAt: int, p: Policy, attempt: int, jitter: real, retryAfter: Option<real>): int {
    readAt + Micros(RetryDelay(p, attempt, jitter, retryAfter))
  }

  predicate InRetryWindow(t: int, readAt: int, p: Policy, attempt: int, retryAfter: Option<real>) {
    readAt <= readAt + Micros(Shortest(p, attempt, retryAfter)) <= t <= readAt + Micros(Longest(p, attempt, retryAfter))
  }

  lemma RunAtIsInWindow(readAt: int, p: Policy, attempt: int, jitter: real, retryAfter: Option<real>)
    requires Sound(p) && Jitter(jitter)
    ensures InRetryWindow(RunAt(readAt, p, attempt, jitter, retryAfter), readAt, p, attempt, retryAfter)
  {
    DelayIsInWindow(p, attempt, jitter, retryAfter);
  }
}
