/** Retry delays in 64-bit nanoseconds (`internal/worker/service.go`). */
module Backoff {

  const MAX_ATTEMPTS: int := 3
  const BASE_BACKOFF: int := 50_000_000
  const LIMIT: int := 0x8000_0000_0000_0000

  /** Two's complement wrap-around of a 64-bit signed integer. */
  function Wrap64(x: int): int {
    (x + LIMIT) % (2 * LIMIT) - LIMIT
  }

  function Pow2(n: nat): int {
    if n == 0 then 1 else 2 * Pow2(n - 1)
  }

  function RetryDelay(base: int, attempt: int): int {
    if attempt <= 1 then base
    else Wrap64(base * Wrap64(Pow2(attempt - 1)))
  }

  lemma {:induction false} Pow2Split(a: nat, b: nat)
    ensures Pow2(a + b) == Pow2(a) * Pow2(b) && Pow2(a) >= 1
  {
    if a > 0 {
      Pow2Split(a - 1, b);
      assert a + b - 1 == (a - 1) + b;
    }
  }

  lemma Pow2Values()
    ensures Pow2(10) == 1024 && Pow2(37) == 0x20_0000_0000 && Pow2(38) == 0x40_0000_0000
    ensures Pow2(63) == LIMIT
  {
    Pow2Split(5, 5);
    Pow2Split(10, 10);
    Pow2Split(20, 10);
    Pow2Split(30, 7);
    Pow2Split(37, 1);
    Pow2Split(38, 20);
    Pow2Split(58, 5);
  }

  lemma Pow2Monotone(a: nat, b: nat)
    requires a <= b
    ensures Pow2(a) <= Pow2(b)
  {
    Pow2Split(a, b - a);
    Pow2Split(b - a, 0);
    var x, y := Pow2(a), Pow2(b - a);
    assert x * y >= x by {
      assert x >= 1 && y >= 1;
    }
  }

  lemma WrapExact(x: int)
    ensures Wrap64(x) == x <==> -LIMIT <= x < LIMIT
  {}

  /** The delay is the doubling it is meant to be exactly up to attempt 38. */
  lemma DelayExact(attempt: int)
    requires attempt >= 1
    ensures RetryDelay(BASE_BACKOFF, attempt) == BASE_BACKOFF * Pow2(attempt - 1) <==> attempt <= 38
  {
    Pow2Values();
    var p := Pow2(attempt - 1);
    if attempt <= 38 {
      Pow2Monotone(attempt - 1, 37);
      Pow2Split(attempt - 1, 0);
      WrapExact(p);
      WrapExact(BASE_BACKOFF * p);
    } else {
      Pow2Monotone(38, attempt - 1);
      var wrapped := BASE_BACKOFF * Wrap64(p);
      assert -LIMIT <= Wrap64(wrapped) < LIMIT;
      assert BASE_BACKOFF * p >= LIMIT;
    }
  }
}
