/** The admission bound when the caller's clock and the clock of Redis disagree. */
module BucketClocks {
  import opened Prelude
  import opened TokenBucket
  import opened BucketBounds
  import opened BucketExpiry

  function Readings(calls: seq<Call>): seq<int> {
    if calls == [] then [] else [calls[0].now] + Readings(calls[1..])
  }

  /** The key is gone although by the caller's clock the bucket had no full period to refill. */
  predicate TooEarly(p: Policy, stored: Option<Stored>, call: Call)
    requires Valid(p)
  {
    && stored.Some? && Found(p, stored, call.redisNow).None?
    && Forward(stored.value.bucket.ts, call.now) * 1_000_000 < p.period
  }

  /** How often a run loses its bucket too early. */
  function Losses(p: Policy, stored: Option<Stored>, calls: seq<Call>): nat
    requires Valid(p)
    decreases |calls|
  {
    if calls == [] then 0
    else (if TooEarly(p, stored, calls[0]) then 1 else 0) + Losses(p, Some(Serve(p, stored, calls[0]).0), calls[1..])
  }

  function Buckets(p: Policy, n: nat): real {
    if n == 0 then 0.0 else Capacity(p) + Buckets(p, n - 1)
  }

  /** What a call finds is covered by the old balance, the refill and one more bucket if the key was lost too early. */
  lemma FoundIsCovered(p: Policy, st: Stored, call: Call)
    requires Valid(p) && Sane(p, Some(st.bucket))
    ensures var found := Balance(p, Found(p, Some(st), call.redisNow), call.now);
            0.0 <= found <= st.bucket.tokens + Refill(p, Forward(st.bucket.ts, call.now))
                            + if TooEarly(p, Some(st), call) then Capacity(p) else 0.0
  {
    var ms := Forward(st.bucket.ts, call.now);
    RefillGrows(p, 0, ms);
    if Found(p, Some(st), call.redisNow).None? && !TooEarly(p, Some(st), call) {
      PeriodRefills(p, ms);
    }
  }

  lemma {:induction false} SpendingBound(p: Policy, st: Stored, calls: seq<Call>)
    requires Valid(p) && Sane(p, Some(st.bucket))
    ensures Admitted(ServeAll(p, Some(st), calls)) as real
         <= st.bucket.tokens + Buckets(p, Losses(p, Some(st), calls)) + Refill(p, Elapsed([st.bucket.ts] + Readings(calls)))
    decreases |calls|
  {
    var times := Readings(calls);
    var all := [st.bucket.ts] + times;
    if calls == [] {
      RefillGrows(p, 0, Elapsed(all));
    } else {
      var (st', reply) := Serve(p, Some(st), calls[0]);
      FoundIsCovered(p, st, calls[0]);
      TakeKeepsSane(p, Found(p, Some(st), calls[0].redisNow), calls[0].now);
      SpendingBound(p, st', calls[1..]);
      assert times[0] == calls[0].now && [st'.bucket.ts] + Readings(calls[1..]) == times && all[1..] == times;
      RefillAdds(p, Forward(st.bucket.ts, times[0]), Elapsed(times));
      var rest := ServeAll(p, Some(st'), calls[1..]);
      assert ([reply] + rest)[1..] == rest;
    }
  }

  /**
   Whatever the two clocks do, the calls admitted are at most one full bucket, one more for every time
   the key was lost before a full period by the caller's clock, and the refill over the caller's time.
   */
  lemma TwoClockBound(p: Policy, calls: seq<Call>)
    requires Valid(p)
    ensures Admitted(ServeAll(p, None, calls)) as real
         <= Capacity(p) + Buckets(p, Losses(p, None, calls)) + Refill(p, Elapsed(Readings(calls)))
  {
    if calls == [] {
      RefillGrows(p, 0, 0);
    } else {
      var (st, reply) := Serve(p, None, calls[0]);
      TakeKeepsSane(p, None, calls[0].now);
      SpendingBound(p, st, calls[1..]);
      assert [st.bucket.ts] + Readings(calls[1..]) == Readings(calls);
      var rest := ServeAll(p, Some(st), calls[1..]);
      assert ([reply] + rest)[1..] == rest;
    }
  }

  /** The bound needs the extra bucket: for every policy, a key lost while the caller's clock stands still gives a full bucket again. */
  lemma LossAdmitsAgain(p: Policy)
    requires Valid(p)
    ensures var late := Call(0, TtlMillis(p) + 1);
            var first := Serve(p, None, Call(0, 0)).0;
            var again := Serve(p, Some(first), late);
            && TooEarly(p, Some(first), late) && again.1.allowed
            && again.0.bucket.tokens == Capacity(p) - 1.0
            && ServeAll(p, None, [Call(0, 0), late]) == [Serve(p, None, Call(0, 0)).1, again.1]
  {
    var late := Call(0, TtlMillis(p) + 1);
    var first := Serve(p, None, Call(0, 0)).0;
    assert [Call(0, 0), late][1..] == [late] && [late][1..] == [];
    assert ServeAll(p, Some(first), [late]) == [Serve(p, Some(first), late).1];
  }

  /** One request a second: two calls at the same caller time are both admitted once Redis time has passed the TTL. */
  lemma StandingClockBreaksBound()
    ensures var p := Policy("auth", 1, 1_000_000_000);
            var calls := [Call(0, 0), Call(0, 2001)];
            && Admitted(ServeAll(p, None, calls)) == 2 && Losses(p, None, calls) == 1
            && Capacity(p) + Refill(p, Elapsed(Readings(calls))) == 1.0
  {
    var p := Policy("auth", 1, 1_000_000_000);
    var calls := [Call(0, 0), Call(0, 2001)];
    LossAdmitsAgain(p);
    assert TtlMillis(p) == 2000;
    var first := Serve(p, None, calls[0]).0;
    assert calls[1..] == [calls[1]] && [calls[1]][1..] == [];
    var replies := ServeAll(p, None, calls);
    assert replies[1..] == [replies[1]] && [replies[1]][1..] == [];
    assert Admitted([replies[1]]) == 1;
    assert Losses(p, Some(first), [calls[1]]) == 1;
    assert Readings(calls) == [0, 0] && [0, 0][1..] == [0];
    assert Elapsed([0]) == 0;
    assert Refill(p, 0) == 0.0;
  }

  /** Clocks that agree never lose a bucket too early, from half a millisecond on. */
  lemma {:induction false} AgreedLosesNothing(p: Policy, stored: Option<Bucket>, times: seq<int>)
    requires Valid(p) && p.period >= 500_000
    ensures Losses(p, Keep(p, stored), Agreed(times)) == 0
    decreases |times|
  {
    if times != [] {
      var st := Serve(p, Keep(p, stored), Call(times[0], times[0])).0;
      assert Some(st) == Keep(p, Some(st.bucket));
      AgreedLosesNothing(p, Some(st.bucket), times[1..]);
      assert Agreed(times)[1..] == Agreed(times[1..]);
    }
  }
}
