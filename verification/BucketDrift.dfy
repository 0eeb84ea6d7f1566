/** How far the clock of Redis may run ahead of the caller's before the expiry of keys shows. */
module BucketDrift {
  import opened Prelude
  import opened TokenBucket
  import opened BucketBounds
  import opened BucketExpiry
  import opened BucketClocks

  /** Between two calls in a row, Redis time gains at most `d` milliseconds on the caller's forward time. */
  ghost predicate Drift(calls: seq<Call>, d: int) {
    forall i, j | 0 <= i < |calls| && 0 <= j < |calls| && j == i + 1 :: Gain(calls[i], calls[j]) <= d
  }

  function Gain(a: Call, b: Call): int {
    b.redisNow - a.redisNow - Forward(a.now, b.now)
  }

  /** The period in whole milliseconds, rounded up. */
  function PeriodMillis(p: Policy): int {
    (p.period + 999_999) / 1_000_000
  }

  /** Keys outlive a full period by this much, and Redis time may gain that on the caller. */
  function Slack(p: Policy): int
    requires Valid(p)
  {
    2 * p.period / 1_000_000 + 1 - (p.period + 999_999) / 1_000_000
  }

  ghost predicate BoundedUnder(p: Policy, d: int)
    requires Valid(p)
  {
    forall calls | Drift(calls, d) ::
      Admitted(ServeAll(p, None, calls)) as real <= Capacity(p) + Refill(p, Elapsed(Readings(calls)))
  }

  ghost predicate InvisibleUnder(p: Policy, d: int)
    requires Valid(p)
  {
    forall calls | Drift(calls, d) :: ServeAll(p, None, calls) == Replies(p, None, Readings(calls))
  }

  // ---- Within the slack nothing is lost ----

  lemma KeptLongEnough(p: Policy, a: Call, b: Call, st: Stored)
    requires Valid(p) && p.period >= 500_000 && Gain(a, b) <= Slack(p)
    requires st.bucket.ts == a.now && st.expiresAt == a.redisNow + TtlMillis(p)
    ensures !TooEarly(p, Some(st), b)
  {
  }

  lemma DriftTail(calls: seq<Call>, d: int)
    requires Drift(calls, d) && calls != []
    ensures Drift(calls[1..], d)
  {
    var rest := calls[1..];
    forall i, j | 0 <= i < |rest| && 0 <= j < |rest| && j == i + 1 ensures Gain(rest[i], rest[j]) <= d {
      var k, l := i + 1, j + 1;
      assert rest[i] == calls[k] && rest[j] == calls[l];
    }
  }

  /** A call that does not lose its key too early takes from the bucket as if the key were kept. */
  lemma SameServe(p: Policy, st: Stored, call: Call)
    requires Valid(p) && Sane(p, Some(st.bucket)) && !TooEarly(p, Some(st), call)
    ensures Serve(p, Some(st), call).1 == Take(p, Some(st.bucket), call.now).1
    ensures Serve(p, Some(st), call).0.bucket == Take(p, Some(st.bucket), call.now).0
  {
    if Found(p, Some(st), call.redisNow).None? {
      PeriodRefills(p, Forward(st.bucket.ts, call.now));
    }
  }

  /** `last` is the call that left the bucket behind. */
  lemma {:induction false} DriftIsInvisible(p: Policy, last: Call, b: Bucket, calls: seq<Call>, d: int)
    requires Valid(p) && p.period >= 500_000 && d <= Slack(p)
    requires Sane(p, Some(b)) && b.ts == last.now && Drift([last] + calls, d)
    ensures ServeAll(p, Some(Stored(b, last.redisNow + TtlMillis(p))), calls) == Replies(p, Some(b), Readings(calls))
    decreases |calls|
  {
    if calls != [] {
      var all := [last] + calls;
      assert all[1] == calls[0] && Gain(all[0], all[1]) <= d;
      var st := Stored(b, last.redisNow + TtlMillis(p));
      KeptLongEnough(p, last, calls[0], st);
      SameServe(p, st, calls[0]);
      TakeKeepsSane(p, Some(b), calls[0].now);
      DriftTail(all, d);
      assert all[1..] == calls && calls == [calls[0]] + calls[1..];
      DriftIsInvisible(p, calls[0], Take(p, Some(b), calls[0].now).0, calls[1..], d);
      assert Readings(calls)[0] == calls[0].now && Readings(calls)[1..] == Readings(calls[1..]);
    }
  }

  lemma SlackHolds(p: Policy, calls: seq<Call>, d: int)
    requires Valid(p) && p.period >= 500_000 && d <= Slack(p) && Drift(calls, d)
    ensures ServeAll(p, None, calls) == Replies(p, None, Readings(calls))
  {
    if calls != [] {
      TakeKeepsSane(p, None, calls[0].now);
      assert calls == [calls[0]] + calls[1..];
      DriftIsInvisible(p, calls[0], Take(p, None, calls[0].now).0, calls[1..], d);
      assert Readings(calls)[0] == calls[0].now && Readings(calls)[1..] == Readings(calls[1..]);
    }
  }

  // ---- Beyond it two bursts are admitted ----

  function Repeat(call: Call, n: nat): seq<Call> {
    seq(n, _ => call)
  }

  lemma {:induction false} ServeAppend(p: Policy, stored: Option<Stored>, xs: seq<Call>, ys: seq<Call>)
    requires Valid(p)
    ensures Admitted(ServeAll(p, stored, xs + ys))
         == Admitted(ServeAll(p, stored, xs)) + Admitted(ServeAll(p, AfterServing(p, stored, xs), ys))
    decreases |xs|
  {
    if xs == [] {
      assert xs + ys == ys;
    } else {
      var (st, reply) := Serve(p, stored, xs[0]);
      ServeAppend(p, Some(st), xs[1..], ys);
      assert (xs + ys)[0] == xs[0] && (xs + ys)[1..] == xs[1..] + ys;
      var rest, all := ServeAll(p, Some(st), xs[1..]), ServeAll(p, Some(st), xs[1..] + ys);
      assert ([reply] + rest)[1..] == rest && ([reply] + all)[1..] == all;
    }
  }

  /** A bucket of n tokens whose key is there admits n calls in one instant. */
  lemma {:induction false} BurstIsServed(p: Policy, st: Stored, call: Call, n: nat)
    requires Valid(p) && TtlMillis(p) > 0 && n <= p.limit
    requires st == Stored(Bucket(n as real, call.now), call.redisNow + TtlMillis(p))
    ensures Admitted(ServeAll(p, Some(st), Repeat(call, n))) == n
    ensures AfterServing(p, Some(st), Repeat(call, n)) == Some(Stored(Bucket(0.0, call.now), call.redisNow + TtlMillis(p)))
    decreases n
  {
    var calls := Repeat(call, n);
    if n > 0 {
      assert Refill(p, 0) == 0.0;
      var (st', reply) := Serve(p, Some(st), call);
      assert st' == Stored(Bucket((n - 1) as real, call.now), call.redisNow + TtlMillis(p)) && reply.allowed;
      BurstIsServed(p, st', call, n - 1);
      assert calls[1..] == Repeat(call, n - 1);
      var rest := ServeAll(p, Some(st'), calls[1..]);
      assert ([reply] + rest)[1..] == rest;
    }
  }

  /** Where no key is found, a whole limit of calls is admitted in one instant. */
  lemma FullBurst(p: Policy, stored: Option<Stored>, call: Call)
    requires Valid(p) && TtlMillis(p) > 0 && Found(p, stored, call.redisNow).None?
    ensures Admitted(ServeAll(p, stored, Repeat(call, p.limit))) == p.limit
    ensures AfterServing(p, stored, Repeat(call, p.limit)) == Some(Stored(Bucket(0.0, call.now), call.redisNow + TtlMillis(p)))
  {
    var calls := Repeat(call, p.limit);
    var (st, reply) := Serve(p, stored, call);
    BurstIsServed(p, st, call, p.limit - 1);
    assert calls[1..] == Repeat(call, p.limit - 1);
    var rest := ServeAll(p, Some(st), calls[1..]);
    assert ([reply] + rest)[1..] == rest;
  }

  /** The whole limit at once, and again when the key is just gone and the caller's period is not quite over. */
  function TwoBursts(p: Policy): seq<Call>
    requires Valid(p)
  {
    Repeat(Call(0, 0), p.limit) + Repeat(Call(PeriodMillis(p) - 1, TtlMillis(p) + 1), p.limit)
  }

  lemma TwoBurstsAreServed(p: Policy)
    requires Valid(p) && p.period >= 500_000
    ensures Admitted(ServeAll(p, None, TwoBursts(p))) == 2 * p.limit
  {
    var first, second := Call(0, 0), Call(PeriodMillis(p) - 1, TtlMillis(p) + 1);
    FullBurst(p, None, first);
    var stored := AfterServing(p, None, Repeat(first, p.limit));
    FullBurst(p, stored, second);
    ServeAppend(p, None, Repeat(first, p.limit), Repeat(second, p.limit));
  }

  lemma {:induction false} ReadingsAt(calls: seq<Call>)
    ensures |Readings(calls)| == |calls| && forall i | 0 <= i < |calls| :: Readings(calls)[i] == calls[i].now
  {
    if calls != [] {
      ReadingsAt(calls[1..]);
    }
  }

  lemma TwoBurstsTakeNoPeriod(p: Policy)
    requires Valid(p)
    ensures TwoBursts(p) != [] && Nondecreasing(Readings(TwoBursts(p)))
    ensures Elapsed(Readings(TwoBursts(p))) == PeriodMillis(p) - 1
    ensures Refill(p, PeriodMillis(p) - 1) < Capacity(p)
  {
    var times := Readings(TwoBursts(p));
    ReadingsAt(TwoBursts(p));
    ElapsedIsSpan(times);
    AlmostFull(p, PeriodMillis(p) - 1);
  }

  /** Less than a period refills less than a bucket. */
  lemma AlmostFull(p: Policy, ms: int)
    requires Valid(p) && ms * 1_000_000 < p.period
    ensures Refill(p, ms) < Capacity(p)
  {
    RatePositive(p);
    var r := RefillPerSecond(p);
    var seconds := p.period as real / 1000000000.0;
    assert r * seconds == Capacity(p);
    assert (ms * 1_000_000) as real == ms as real * 1000000.0;
    assert ms as real / 1000.0 < seconds;
    ScaleMonotone(seconds, ms as real / 1000.0, r);
  }

  lemma TwoBurstsDrift(p: Policy, d: int)
    requires Valid(p) && p.period >= 500_000 && d > Slack(p)
    ensures Drift(TwoBursts(p), d)
  {
    var calls := TwoBursts(p);
    forall i, j | 0 <= i < |calls| && 0 <= j < |calls| && j == i + 1 ensures Gain(calls[i], calls[j]) <= d {
      assert Slack(p) >= 0;
    }
  }

  // ---- Below half a millisecond ----

  /** A step back of the Redis clock with each call, as far as `d` asks for one. */
  function Back(n: nat, d: int): int {
    if n == 0 then 0 else Back(n - 1, d) + if d < 0 then d else 0
  }

  /** One call more than the limit while the caller's clock stands still and the one of Redis goes nowhere or back. */
  function Standing(p: Policy, d: int): seq<Call>
    requires Valid(p)
  {
    seq(p.limit + 1, (i: nat) => Call(0, Back(i, d)))
  }

  lemma StandingDrifts(p: Policy, d: int)
    requires Valid(p)
    ensures Drift(Standing(p, d), d)
  {
    var calls := Standing(p, d);
    forall i, j | 0 <= i < |calls| && 0 <= j < |calls| && j == i + 1 ensures Gain(calls[i], calls[j]) <= d {
      assert Back(j, d) == Back(i, d) + if d < 0 then d else 0;
    }
  }

  lemma StandingStands(p: Policy, d: int)
    requires Valid(p)
    ensures Standing(p, d) != [] && Nondecreasing(Readings(Standing(p, d)))
    ensures Elapsed(Readings(Standing(p, d))) == 0
  {
    ReadingsAt(Standing(p, d));
    ElapsedIsSpan(Readings(Standing(p, d)));
  }

  lemma StandingBreaks(p: Policy, d: int)
    requires Valid(p) && p.period < 500_000
    ensures Admitted(ServeAll(p, None, Standing(p, d))) == p.limit + 1
  {
    AlwaysAdmits(p, None, Standing(p, d));
  }

  // ---- The exact condition ----

  lemma BeyondBreaks(p: Policy, d: int) returns (calls: seq<Call>)
    requires Valid(p) && !(p.period >= 500_000 && d <= Slack(p))
    ensures Drift(calls, d)
    ensures calls != [] && Nondecreasing(Readings(calls))
    ensures Admitted(ServeAll(p, None, calls)) as real > Capacity(p) + Refill(p, Elapsed(Readings(calls)))
  {
    if p.period >= 500_000 {
      calls := TwoBursts(p);
      TwoBurstsDrift(p, d);
      TwoBurstsAreServed(p);
      TwoBurstsTakeNoPeriod(p);
    } else {
      calls := Standing(p, d);
      StandingDrifts(p, d);
      StandingStands(p, d);
      StandingBreaks(p, d);
      assert Refill(p, 0) == 0.0;
    }
  }

  /**
   The admission bound on two clocks: it holds on every run in which Redis time gains at most `d` ms on
   the caller's between calls if and only if keys are kept at all and `d` is within the slack, which is
   what the TTL exceeds the period by.
   */
  lemma DriftBoundIff(p: Policy, d: int)
    requires Valid(p)
    ensures BoundedUnder(p, d) <==> p.period >= 500_000 && d <= Slack(p)
  {
    if p.period >= 500_000 && d <= Slack(p) {
      forall calls | Drift(calls, d)
        ensures Admitted(ServeAll(p, None, calls)) as real <= Capacity(p) + Refill(p, Elapsed(Readings(calls)))
      {
        SlackHolds(p, calls, d);
        KeptAdmissionBound(p, None, Readings(calls));
      }
    } else {
      var calls := BeyondBreaks(p, d);
    }
  }

  /** Under the same condition, and no weaker one, no caller can tell that keys expire. */
  lemma DriftInvisibleIff(p: Policy, d: int)
    requires Valid(p)
    ensures InvisibleUnder(p, d) <==> p.period >= 500_000 && d <= Slack(p)
  {
    if p.period >= 500_000 && d <= Slack(p) {
      forall calls | Drift(calls, d) ensures ServeAll(p, None, calls) == Replies(p, None, Readings(calls)) {
        SlackHolds(p, calls, d);
      }
    } else {
      var calls := BeyondBreaks(p, d);
      KeptAdmissionBound(p, None, Readings(calls));
    }
  }

  ghost predicate WindowUnder(p: Policy, calls: seq<Call>, i: nat, j: nat)
    requires Valid(p)
  {
    i < j <= |calls| ==>
      && |ServeAll(p, None, calls)| == |calls|
      && Admitted(ServeAll(p, None, calls)[i..j]) as real <= Capacity(p) + Refill(p, calls[j - 1].now - calls[i].now)
  }

  ghost predicate WindowsUnder(p: Policy, d: int)
    requires Valid(p)
  {
    forall calls, i: nat, j: nat | Drift(calls, d) && Nondecreasing(Readings(calls)) :: WindowUnder(p, calls, i, j)
  }

  /** Over every window of every run with a nondecreasing caller's clock, again under exactly that condition. */
  lemma DriftWindowIff(p: Policy, d: int)
    requires Valid(p)
    ensures WindowsUnder(p, d) <==> p.period >= 500_000 && d <= Slack(p)
  {
    if p.period >= 500_000 && d <= Slack(p) {
      forall calls, i: nat, j: nat | Drift(calls, d) && Nondecreasing(Readings(calls)) ensures WindowUnder(p, calls, i, j) {
        if i < j <= |calls| {
          ReadingsAt(calls);
          SlackHolds(p, calls, d);
          KeptWindowBound(p, Readings(calls), i, j);
        }
      }
    } else {
      var calls := BeyondBreaks(p, d);
      ReadingsAt(calls);
      ElapsedIsSpan(Readings(calls));
      var replies := ServeAll(p, None, calls);
      assert |replies| == |calls| ==> replies[0..|calls|] == replies;
      assert !WindowUnder(p, calls, 0, |calls|);
    }
  }
}
