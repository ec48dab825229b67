// Retry delays in 64-bit arithmetic: internal/platform/backoff/backoff.go. Durations are int64
// nanoseconds; products wrap around.
module Backoff {
  import opened Prelude

  const TWO_64: int := 0x1_0000_0000_0000_0000
  const MAX_RETRY_ATTEMPTS: int := 100

  predicate IsInt64(x: int) {
    MIN_INT64 <= x <= MAX_INT64
  }

  // What a 64-bit result keeps of x.
  function Wrap(x: int): (r: int)
    ensures IsInt64(r) && (IsInt64(x) ==> r == x)
  {
    (x + MAX_INT64 + 1) % TWO_64 - MAX_INT64 - 1
  }

  function Pow2(n: nat): (p: int)
    ensures p >= 1
  {
    if n == 0 then 1 else 2 * Pow2(n - 1)
  }

  lemma {:induction false} Pow2Adds(m: nat, n: nat)
    ensures Pow2(m + n) == Pow2(m) * Pow2(n)
  {
    if m > 0 {
      Pow2Adds(m - 1, n);
      assert m + n - 1 == (m - 1) + n;
    }
  }

  lemma Pow2Table()
    ensures Pow2(62) == 0x4000_0000_0000_0000 && Pow2(64) == TWO_64
  {
    assert Pow2(8) == 256;
    assert Pow2(16) == 0x1_0000 by { Pow2Adds(8, 8); }
    assert Pow2(32) == 0x1_0000_0000 by { Pow2Adds(16, 16); }
    Pow2Adds(32, 32);
    assert Pow2(64) == 4 * Pow2(62);
  }

  lemma {:induction false} Pow2Grows(m: nat, n: nat)
    requires m <= n
    ensures Pow2(m) <= Pow2(n)
  {
    if m < n { Pow2Grows(m, n - 1); }
  }

  // ---------------------------------------------------------------- exponential backoff

  function Exponential(attempt: int, base: int, maxBackoff: int): int
    requires IsInt64(base) && IsInt64(maxBackoff)
  {
    if base <= 0 || maxBackoff <= 0 then 0
    else
      var n := Max(attempt, 0);
      if n >= 62 then maxBackoff
      else
        var multiplier := Pow2(n);
        var res := Wrap(base * multiplier);
        if res <= 0 || res > maxBackoff || res / multiplier != base then maxBackoff else res
  }

  // What its documentation says it returns.
  function Documented(attempt: int, base: int, maxBackoff: int): int {
    Min(maxBackoff, base * Pow2(Max(attempt, 0)))
  }

  lemma Quotient(a: int, b: int, c: int)
    requires b > 0 && c == a * b
    ensures c / b == a
  {
    var q := c / b;
    assert b * q <= c < b * q + b;
    if q < a {
      Ordered(b, q + 1, a);
    } else if q > a {
      Ordered(b, a + 1, q);
    }
  }

  lemma WrapTakesOff(x: int) returns (k: int)
    requires x > MAX_INT64
    ensures k >= 1 && Wrap(x) == x - k * TWO_64
  {
    k := (x + MAX_INT64 + 1) / TWO_64;
  }

  lemma TakenOff(base: int, m: int, rest: int, k: int, res: int)
    requires m >= 1 && rest >= 1 && k >= 1 && res == base * m - k * (rest * m)
    ensures res / m != base
  {
    Associates(k, rest, m);
    Distributes(base, k * rest, m);
    Quotient(base - k * rest, m, res);
    Positive(k, rest);
  }

  // A product that does not fit cannot come back as itself: whatever is left of it divides to another
  // base.
  lemma WrappedQuotient(base: int, n: nat, res: int)
    requires n < 62 && res == Wrap(base * Pow2(n)) && base * Pow2(n) > MAX_INT64
    ensures res / Pow2(n) != base
  {
    var k := WrapTakesOff(base * Pow2(n));
    assert Pow2(64 - n) * Pow2(n) == TWO_64 by { Pow2Adds(64 - n, n); Pow2Table(); }
    TakenOff(base, Pow2(n), Pow2(64 - n), k, res);
  }

  lemma Associates(a: int, b: int, c: int)
    ensures a * (b * c) == (a * b) * c
  {}

  lemma Positive(a: int, b: int)
    requires a >= 1 && b >= 1
    ensures a * b >= 1
  {}

  lemma SmallAttempt(n: nat, base: int, maxBackoff: int)
    requires IsInt64(base) && IsInt64(maxBackoff) && base > 0 && maxBackoff > 0 && n < 62
    ensures Exponential(n, base, maxBackoff) == Documented(n, base, maxBackoff)
  {
    var product, res := base * Pow2(n), Wrap(base * Pow2(n));
    Positive(base, Pow2(n));
    if product > MAX_INT64 {
      WrappedQuotient(base, n, res);
    } else {
      Quotient(base, Pow2(n), res);
    }
  }

  lemma Grows(base: int, a: int, b: int)
    requires base >= 1 && 0 <= a <= b
    ensures base * a <= base * b && b <= base * b
  {}

  lemma LargeAttempt(n: nat, base: int, maxBackoff: int)
    requires IsInt64(maxBackoff) && base > 0 && maxBackoff > 0 && n >= 62
    ensures maxBackoff == Documented(n, base, maxBackoff) <==> !(n == 62 && base == 1 && maxBackoff > Pow2(62))
  {
    Pow2Table();
    if n == 62 {
      if base >= 2 {
        Grows(base, 2, Pow2(62));
        assert base * Pow2(62) >= 2 * Pow2(62) by { Scaled(base, Pow2(62)); }
      }
    } else {
      Pow2Grows(63, n);
      assert Pow2(63) == 2 * Pow2(62);
      Grows(base, Pow2(63), Pow2(n));
      Grows(base, 0, Pow2(n));
    }
  }

  lemma NotPositive(base: int, p: int)
    requires p >= 1
    ensures base <= 0 ==> base * p <= base
    ensures base >= 0 ==> base * p >= base
  {}

  lemma Scaled(base: int, p: int)
    requires base >= 2 && p >= 0
    ensures base * p >= 2 * p
  {}

  // The result is min(maxBackoff, base * 2^attempt) for all positive durations unless the attempt is the
  // 62nd, the base is one nanosecond and the cap is above 2^62; and when one is not positive, only if the
  // smaller of base and cap is zero, since the code answers zero.
  lemma ExponentialIsMinimumIff(attempt: int, base: int, maxBackoff: int)
    requires IsInt64(base) && IsInt64(maxBackoff)
    ensures Exponential(attempt, base, maxBackoff) == Documented(attempt, base, maxBackoff)
            <==> if base > 0 && maxBackoff > 0 then !(attempt == 62 && base == 1 && maxBackoff > Pow2(62))
                 else Min(base, maxBackoff) == 0
  {
    var n := Max(attempt, 0);
    if base <= 0 || maxBackoff <= 0 {
      NotPositive(base, Pow2(n));
    } else if n < 62 {
      SmallAttempt(n, base, maxBackoff);
    } else {
      LargeAttempt(n, base, maxBackoff);
    }
  }

  // Never negative, never above the cap.
  lemma ExponentialBounded(attempt: int, base: int, maxBackoff: int)
    requires IsInt64(base) && IsInt64(maxBackoff)
    ensures 0 <= Exponential(attempt, base, maxBackoff) <= Max(maxBackoff, 0)
  {}

  // Waiting never gets shorter with another attempt.
  lemma ExponentialMonotone(a: int, b: int, base: int, maxBackoff: int)
    requires IsInt64(base) && IsInt64(maxBackoff) && a <= b
    ensures Exponential(a, base, maxBackoff) <= Exponential(b, base, maxBackoff)
  {
    ExponentialBounded(a, base, maxBackoff);
    if base > 0 && maxBackoff > 0 && Max(b, 0) < 62 {
      SmallAttempt(Max(a, 0), base, maxBackoff);
      SmallAttempt(Max(b, 0), base, maxBackoff);
      Pow2Grows(Max(a, 0), Max(b, 0));
      Grows(base, Pow2(Max(a, 0)), Pow2(Max(b, 0)));
    }
  }

  // The jitter's random draw asks for a bound of ceiling + 1, which must not wrap.
  predicate JitterDefined(attempt: int, base: int, maxBackoff: int)
    requires IsInt64(base) && IsInt64(maxBackoff)
  {
    var ceiling := Exponential(attempt, base, maxBackoff);
    ceiling <= 0 || Wrap(ceiling + 1) > 0
  }

  lemma NotNegative(a: int, b: int)
    requires a >= 0 && b >= 0
    ensures a * b >= 0
  {}

  // ---------------------------------------------------------------- accepted policies

  function Window(attempts: int, handlerTimeout: int, maxBackoff: int): int {
    attempts * handlerTimeout + (attempts - 1) * maxBackoff
  }

  lemma ExceedsQuotient(x: int, n: int, limit: int)
    requires n > 0 && limit >= 0
    ensures x > limit / n <==> n * x > limit
  {
    var q := limit / n;
    assert n * q <= limit < n * (q + 1);
    if x > q {
      assert n * x >= n * (q + 1) by { Ordered(n, q + 1, x); }
    } else {
      assert n * x <= n * q by { Ordered(n, x, q); }
    }
  }

  lemma Ordered(n: int, a: int, b: int)
    requires n >= 0 && a <= b
    ensures n * a <= n * b
  {}

  // The worst-case window, rejected exactly when it does not fit in 64 bits.
  method MaxRetryWindow(attempts: int, handlerTimeout: int, maxBackoff: int) returns (window: Option<int>)
    requires 1 <= attempts <= MAX_RETRY_ATTEMPTS && IsInt64(handlerTimeout) && IsInt64(maxBackoff) && handlerTimeout > 0
             && maxBackoff > 0
    ensures window.None? <==> Window(attempts, handlerTimeout, maxBackoff) > MAX_INT64
    ensures window.Some? ==> window.value == Window(attempts, handlerTimeout, maxBackoff)
  {
    ExceedsQuotient(handlerTimeout, attempts, MAX_INT64);
    NotNegative(attempts - 1, maxBackoff);
    if handlerTimeout > MAX_INT64 / attempts {
      return None;
    }
    assert attempts * handlerTimeout >= 1 by { Positive(attempts, handlerTimeout); }
    var total := Wrap(attempts * handlerTimeout);
    var sleeps := attempts - 1;
    if sleeps > 0 {
      ExceedsQuotient(maxBackoff, sleeps, MAX_INT64 - total);
      if maxBackoff > (MAX_INT64 - total) / sleeps {
        return None;
      }
      total := Wrap(total + Wrap(sleeps * maxBackoff));
    }
    return Some(total);
  }

  // Accepted exactly when the attempts are in range, the durations make sense and the whole worst case is
  // shorter than the time after which another consumer takes the message over.
  method ValidateRetryPolicy(attempts: int, base: int, maxBackoff: int, handlerTimeout: int, claimMinIdle: int)
    returns (ok: bool)
    requires IsInt64(base) && IsInt64(maxBackoff) && IsInt64(handlerTimeout) && IsInt64(claimMinIdle)
    ensures ok <==> Accepted(attempts, base, maxBackoff, handlerTimeout, claimMinIdle)
  {
    if attempts < 1 || attempts > MAX_RETRY_ATTEMPTS {
      return false;
    }
    if base <= 0 {
      return false;
    }
    if maxBackoff < base {
      return false;
    }
    if handlerTimeout <= 0 {
      return false;
    }
    var window := MaxRetryWindow(attempts, handlerTimeout, maxBackoff);
    if window.None? {
      return false;
    }
    return window.value < claimMinIdle;
  }

  predicate Accepted(attempts: int, base: int, maxBackoff: int, handlerTimeout: int, claimMinIdle: int) {
    1 <= attempts <= MAX_RETRY_ATTEMPTS && 0 < base <= maxBackoff && handlerTimeout > 0
    && Window(attempts, handlerTimeout, maxBackoff) < claimMinIdle
  }

  // Under an accepted policy that sleeps at all, the jitter never asks for an impossible draw.
  lemma AcceptedJitterIsDefined(attempts: int, base: int, maxBackoff: int, handlerTimeout: int, claimMinIdle: int,
                                attempt: int)
    requires IsInt64(base) && IsInt64(maxBackoff) && IsInt64(handlerTimeout) && IsInt64(claimMinIdle)
    requires Accepted(attempts, base, maxBackoff, handlerTimeout, claimMinIdle) && attempts >= 2
    ensures JitterDefined(attempt, base, maxBackoff)
  {
    ExponentialBounded(attempt, base, maxBackoff);
    assert (attempts - 1) * maxBackoff >= maxBackoff by { Grows(attempts - 1, 0, maxBackoff); }
    assert attempts * handlerTimeout >= 1 by { Positive(attempts, handlerTimeout); }
  }
}
