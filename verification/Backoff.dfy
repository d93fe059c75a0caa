/**
 The un-jittered exponential retry delay, in nanoseconds.
 */
module Backoff {
  import opened Rows

  /** One hundred years, and the largest `Duration`. */
  const MAX_DURATION: nat := 3_153_600_000_000 * 1_000_000
  const DURATION_LIMIT: nat := 0x1_0000_0000_0000_0000 * 1_000_000_000 - 1

  function Least(a: nat, b: nat): nat { if a < b then a else b }

  function Pow2(n: nat): nat { if n == 0 then 1 else 2 * Pow2(n - 1) }

  function Exponent(attempts: nat): nat { if attempts == 0 then 0 else attempts - 1 }

  /** The base doubled `n` times, under one hundred years. */
  function Doubled(base: nat, n: nat): nat { Least(base * Pow2(n), MAX_DURATION) }

  /** The promise: the base doubled once per earlier retry, however many, under the cap and one hundred years. */
  function Promised(base: nat, attempts: nat, cap: Option<nat>): nat {
    var doubled := Doubled(base, Exponent(attempts));
    if cap.Some? then Least(doubled, cap.value) else doubled
  }

  lemma {:induction false} PowersGrow(a: nat, b: nat)
    requires a <= b
    ensures Pow2(a) <= Pow2(b)
    decreases b - a
  {
    if a < b { PowersGrow(a, b - 1); }
  }

  lemma Scaled(base: nat, x: nat, y: nat)
    requires x <= y
    ensures base * x <= base * y
  {
  }

  lemma DoubledGrows(base: nat, a: nat, b: nat)
    requires a <= b
    ensures base * Pow2(a) <= base * Pow2(b) && Doubled(base, a) <= Doubled(base, b)
  {
    PowersGrow(a, b);
    Scaled(base, Pow2(a), Pow2(b));
  }

  lemma DoubledStep(base: nat, n: nat)
    ensures Doubled(base, n + 1) == Least(Least(2 * Doubled(base, n), DURATION_LIMIT), MAX_DURATION)
  {
    assert base * Pow2(n + 1) == 2 * (base * Pow2(n));
  }

  lemma SevenMore(n: nat)
    ensures Pow2(n + 7) == 128 * Pow2(n)
  {
    assert Pow2(n + 2) == 2 * Pow2(n + 1) && Pow2(n + 4) == 2 * Pow2(n + 3) && Pow2(n + 6) == 2 * Pow2(n + 5);
  }

  lemma SixtyThreeDoublings(n: nat)
    requires n == 63
    ensures Pow2(n) == 0x8000_0000_0000_0000 > MAX_DURATION
  {
    SevenMore(n - 63); SevenMore(n - 56); SevenMore(n - 49); SevenMore(n - 42); SevenMore(n - 35);
    SevenMore(n - 28); SevenMore(n - 21); SevenMore(n - 14); SevenMore(n - 7);
  }

  lemma AtLeast(base: nat, x: nat)
    requires base > 0
    ensures base * x >= x
  {
  }

  /** The loop's exponent cap is invisible: 63 doublings of any non-zero base pass one hundred years. */
  lemma ExponentCapIsInvisible(base: nat, n: nat)
    ensures Doubled(base, Least(n, 63)) == Doubled(base, n)
  {
    if n > 63 {
      DoubledGrows(base, 63, n);
      SixtyThreeDoublings(63);
      if base > 0 { AtLeast(base, Pow2(63)); }
    }
  }

  method ExponentialDelayBound(retryDelay: nat, attempts: nat, max: Option<nat>) returns (bound: nat)
    ensures bound == Promised(retryDelay, attempts, max)
  {
    var exponent := Least(Exponent(attempts), 63);
    var delay := Least(retryDelay, MAX_DURATION);
    var n := 0;
    assert delay == Doubled(retryDelay, 0);
    while n < exponent
      invariant n <= exponent && delay == Doubled(retryDelay, n)
    {
      DoubledStep(retryDelay, n);
      delay := Least(Least(2 * delay, DURATION_LIMIT), MAX_DURATION);
      n := n + 1;
      if delay == MAX_DURATION { break; }
    }
    DoubledGrows(retryDelay, n, exponent);
    ExponentCapIsInvisible(retryDelay, Exponent(attempts));
    bound := Least(if max.Some? then Least(delay, max.value) else delay, MAX_DURATION);
  }

  /** A later attempt never waits under a smaller bound. */
  lemma BoundIsMonotone(base: nat, a: nat, b: nat, cap: Option<nat>)
    requires a <= b
    ensures Promised(base, a, cap) <= Promised(base, b, cap) <= MAX_DURATION
  {
    DoubledGrows(base, Exponent(a), Exponent(b));
  }

  /** The delays one by one: the first retry waits the base, each further one twice as long, all under one hundred years,
      and a cap shortens each of them to itself. */
  lemma DelaysDouble(base: nat, attempts: nat, cap: nat)
    requires attempts >= 1
    ensures Promised(base, 0, None) == Promised(base, 1, None) == Least(base, 3_153_600_000_000_000_000)
    ensures Promised(base, attempts + 1, None) == Least(2 * Promised(base, attempts, None), 3_153_600_000_000_000_000)
    ensures Promised(base, attempts, Some(cap)) == Least(Promised(base, attempts, None), cap)
  {
    assert base * Pow2(0) == base;
    DoubledStep(base, attempts - 1);
  }
}
