/**
 The token bucket of the rate limiter. Token counts are exact reals, so the rounding of the
 floating-point arithmetic is idealised away; clock readings are whole milliseconds.
 */
module TokenBucket {
  import opened Prelude

  /** `period` is in nanoseconds. */
  datatype Policy = Policy(name: string, limit: int, period: int)

  predicate Valid(p: Policy) {
    p.name != "" && p.limit >= 1 && p.period > 0
  }

  datatype Bucket = Bucket(tokens: real, ts: int)

  datatype Reply = Reply(allowed: bool, remaining: int, retryMs: int)

  function Capacity(p: Policy): real {
    p.limit as real
  }

  function RefillPerSecond(p: Policy): real
    requires p.period > 0
  {
    p.limit as real / (p.period as real / 1000000000.0)
  }

  /** How long an idle bucket is kept, in whole milliseconds. */
  function TtlMillis(p: Policy): int
    requires p.period > 0
  {
    2 * p.period / 1_000_000
  }

  /** Tokens gained over `ms` milliseconds, ignoring the cap. */
  function Refill(p: Policy, ms: int): real
    requires p.period > 0
  {
    ms as real / 1000.0 * RefillPerSecond(p)
  }

  function Ceiling(x: real): int {
    -((-x).Floor)
  }

  function Min(x: real, y: real): real {
    if x <= y then x else y
  }

  function Forward(from: int, to: int): nat {
    if to > from then to - from else 0
  }

  /** The balance a call at `now` finds: a missing bucket is full. */
  function Balance(p: Policy, stored: Option<Bucket>, now: int): real
    requires p.period > 0
  {
    match stored
    case None => Capacity(p)
    case Some(b) => Min(Capacity(p), b.tokens + Refill(p, Forward(b.ts, now)))
  }

  /** The script: refill, then spend one token or report how long until one is available. */
  function Take(p: Policy, stored: Option<Bucket>, now: int): (Bucket, Reply)
    requires Valid(p)
  {
    var tokens := Balance(p, stored, now);
    if tokens >= 1.0 then
      (Bucket(tokens - 1.0, now), Reply(true, (tokens - 1.0).Floor, 0))
    else
      assert RefillPerSecond(p) > 0.0 by { RatePositive(p); }
      (Bucket(tokens, now), Reply(false, tokens.Floor, Ceiling((1.0 - tokens) / RefillPerSecond(p) * 1000.0)))
  }

  function After(p: Policy, stored: Option<Bucket>, times: seq<int>): Option<Bucket>
    requires Valid(p)
    decreases |times|
  {
    if times == [] then stored else After(p, Some(Take(p, stored, times[0]).0), times[1..])
  }

  function Replies(p: Policy, stored: Option<Bucket>, times: seq<int>): seq<Reply>
    requires Valid(p)
    decreases |times|
  {
    if times == [] then [] else [Take(p, stored, times[0]).1] + Replies(p, Some(Take(p, stored, times[0]).0), times[1..])
  }

  function Admitted(replies: seq<Reply>): nat {
    if replies == [] then 0 else (if replies[0].allowed then 1 else 0) + Admitted(replies[1..])
  }

  /** Time that passed forwards over a sequence of clock readings; steps back count for nothing. */
  function Elapsed(times: seq<int>): nat {
    if |times| < 2 then 0 else Forward(times[0], times[1]) + Elapsed(times[1..])
  }

  ghost predicate Nondecreasing(times: seq<int>) {
    forall i, j | 0 <= i < j < |times| :: times[i] <= times[j]
  }

  lemma RatePositive(p: Policy)
    requires Valid(p)
    ensures RefillPerSecond(p) > 0.0
  {
    var seconds := p.period as real / 1000000000.0;
    assert seconds > 0.0;
  }

  lemma RefillAdds(p: Policy, a: int, b: int)
    requires Valid(p)
    ensures Refill(p, a + b) == Refill(p, a) + Refill(p, b)
  {
    var r := RefillPerSecond(p);
    assert (a + b) as real / 1000.0 == a as real / 1000.0 + b as real / 1000.0;
    Distribute(a as real / 1000.0, b as real / 1000.0, r);
  }

  lemma Distribute(x: real, y: real, z: real)
    ensures (x + y) * z == x * z + y * z
  {
  }

  lemma RefillGrows(p: Policy, a: int, b: int)
    requires Valid(p) && a <= b
    ensures Refill(p, a) <= Refill(p, b)
    ensures a >= 0 ==> Refill(p, a) >= 0.0
  {
    RatePositive(p);
    var r := RefillPerSecond(p);
    ScaleMonotone(a as real / 1000.0, b as real / 1000.0, r);
    ScaleMonotone(0.0, a as real / 1000.0, r);
  }

  lemma ScaleMonotone(x: real, y: real, z: real)
    requires z > 0.0
    ensures x <= y ==> x * z <= y * z
    ensures x * z <= y * z ==> x <= y
  {
    assert (y - x) * z == y * z - x * z;
    if x <= y {
      assert (y - x) * z >= 0.0;
    } else {
      assert (y - x) * z < 0.0;
    }
  }

  /** One period refills exactly one full bucket. */
  lemma PeriodRefills(p: Policy, ms: int)
    requires Valid(p)
    requires ms * 1_000_000 >= p.period
    ensures Refill(p, ms) >= Capacity(p)
  {
    RatePositive(p);
    var r := RefillPerSecond(p);
    var seconds := p.period as real / 1000000000.0;
    assert r * seconds == Capacity(p);
    assert (ms * 1_000_000) as real == ms as real * 1000000.0;
    assert ms as real / 1000.0 >= seconds;
    ScaleMonotone(seconds, ms as real / 1000.0, r);
  }
}
