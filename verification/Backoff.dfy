/** The delay before a retry: exponential growth from the base delay, capped, with jitter. */
module Backoff {
  import opened Prelude

  const MAX_INT64: int := 0x7FFF_FFFF_FFFF_FFFF
  const MIN_INT64: int := -0x8000_0000_0000_0000

  /** Base delays up to this many nanoseconds are exact in a float64, and so is every doubling of them. */
  const MAX_EXACT: int := 0x20_0000_0000_0000

  /** What converting an out-of-range float64 to int64 yields: the nearest bound, or the indefinite value. */
  datatype Conversion = Saturating | Indefinite

  /** `base` doubled `n` times, which is base * 2^n. */
  function Doubled(base: nat, n: nat): (r: nat)
    ensures r >= base
  {
    if n == 0 then base else 2 * Doubled(base, n - 1)
  }

  function ToInt64(x: nat, conversion: Conversion): int {
    if x <= MAX_INT64 then x else if conversion.Saturating? then MAX_INT64 else MIN_INT64
  }

  function Shift(attempt: int): nat {
    var n := if attempt < 1 then 1 else attempt;
    if n - 1 < 32 then n - 1 else 32
  }

  /** The delay before jitter, computed as the code does. */
  function Delay(base: nat, max: int, attempt: int, conversion: Conversion): int {
    var delay := ToInt64(Doubled(base, Shift(attempt)), conversion);
    if delay > max || delay <= 0 then max else delay
  }

  /** `jitter` is the random draw below half the delay, or None when the source of randomness fails. */
  function Jittered(delay: int, jitter: Option<nat>): int {
    if delay / 2 <= 0 || jitter.None? then delay else delay + jitter.value
  }

  predicate DrawnFrom(jitter: Option<nat>, delay: int) {
    jitter.Some? && delay / 2 > 0 ==> jitter.value < delay / 2
  }

  /** The documented delay: the base at first, twice as long after every further attempt, for at most 32 of them, and capped. */
  function Nominal(base: nat, max: nat, attempt: int): nat
    decreases if attempt < 0 then 0 else attempt
  {
    if attempt <= 1 then (if base <= max then base else max)
    else if attempt > 33 then Nominal(base, max, 33)
    else if 2 * Nominal(base, max, attempt - 1) <= max then 2 * Nominal(base, max, attempt - 1)
    else max
  }

  /** The bounds `NewQueue` establishes, for delays a float64 and an int64 can hold. */
  predicate Configured(base: int, max: int) {
    0 < base <= MAX_EXACT && base <= max && 3 * max <= 2 * MAX_INT64
  }

  lemma {:induction false} DoubledMonotone(base: nat, m: nat, n: nat)
    requires m <= n
    ensures Doubled(base, m) <= Doubled(base, n)
  {
    if m < n {
      DoubledMonotone(base, m, n - 1);
    }
  }

  /** Doubling and capping step by step is doubling first and capping once. */
  lemma {:induction false} NominalIsCapped(base: nat, max: nat, attempt: int)
    ensures var grown := Doubled(base, Shift(attempt)); Nominal(base, max, attempt) == if grown <= max then grown else max
    decreases if attempt < 0 then 0 else attempt
  {
    if attempt > 33 {
      NominalIsCapped(base, max, 33);
    } else if attempt > 1 {
      NominalIsCapped(base, max, attempt - 1);
    }
  }

  /** Whatever the platform makes of an out-of-range conversion, the delay is the nominal one. */
  lemma DelayIsNominal(base: nat, max: nat, attempt: int, conversion: Conversion)
    requires Configured(base, max)
    ensures Delay(base, max, attempt, conversion) == Nominal(base, max, attempt)
    ensures base <= Nominal(base, max, attempt) <= max
  {
    NominalIsCapped(base, max, attempt);
  }

  /** Every retry waits at least the nominal delay and less than half as long again, without overflow. */
  lemma BackoffBound(base: nat, max: nat, attempt: int, conversion: Conversion, jitter: Option<nat>)
    requires Configured(base, max)
    requires DrawnFrom(jitter, Delay(base, max, attempt, conversion))
    ensures var d := Nominal(base, max, attempt);
            d <= Jittered(Delay(base, max, attempt, conversion), jitter) <= d + d / 2 <= MAX_INT64
  {
    DelayIsNominal(base, max, attempt, conversion);
  }

  /** More failures never shorten the nominal delay. */
  lemma NominalMonotone(base: nat, max: nat, earlier: int, later: int)
    requires earlier <= later
    ensures Nominal(base, max, earlier) <= Nominal(base, max, later)
  {
    NominalIsCapped(base, max, earlier);
    NominalIsCapped(base, max, later);
    DoubledMonotone(base, Shift(earlier), Shift(later));
  }
}
