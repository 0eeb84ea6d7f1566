/**
 Buckets live under a Redis key that expires. The script refills by the caller's clock, while the key
 expires by the clock of Redis, so a call carries a reading of each.
 */
module BucketExpiry {
  import opened Prelude
  import opened TokenBucket
  import opened BucketBounds

  datatype Call = Call(now: int, redisNow: int)

  /** What the last call left: the bucket, and the Redis time after which its key is gone. */
  datatype Stored = Stored(bucket: Bucket, expiresAt: int)

  /** A key lives up to and including its expiry millisecond; a TTL of zero removes it at once. */
  function Found(p: Policy, stored: Option<Stored>, redisNow: int): Option<Bucket>
    requires Valid(p)
  {
    if stored.Some? && TtlMillis(p) > 0 && redisNow <= stored.value.expiresAt then Some(stored.value.bucket) else None
  }

  function Serve(p: Policy, stored: Option<Stored>, call: Call): (Stored, Reply)
    requires Valid(p)
  {
    var (b, reply) := Take(p, Found(p, stored, call.redisNow), call.now);
    (Stored(b, call.redisNow + TtlMillis(p)), reply)
  }

  function ServeAll(p: Policy, stored: Option<Stored>, calls: seq<Call>): seq<Reply>
    requires Valid(p)
    decreases |calls|
  {
    if calls == [] then []
    else
      var (st, reply) := Serve(p, stored, calls[0]);
      [reply] + ServeAll(p, Some(st), calls[1..])
  }

  function AfterServing(p: Policy, stored: Option<Stored>, calls: seq<Call>): Option<Stored>
    requires Valid(p)
    decreases |calls|
  {
    if calls == [] then stored else AfterServing(p, Some(Serve(p, stored, calls[0]).0), calls[1..])
  }

  // ---- Clocks that agree ----

  function Agreed(times: seq<int>): seq<Call> {
    if times == [] then [] else [Call(times[0], times[0])] + Agreed(times[1..])
  }

  /** The key of a bucket that was last used at `ts` by either clock. */
  function Keep(p: Policy, stored: Option<Bucket>): Option<Stored>
    requires Valid(p)
  {
    if stored.None? then None else Some(Stored(stored.value, stored.value.ts + TtlMillis(p)))
  }

  function RepliesWithExpiry(p: Policy, stored: Option<Bucket>, times: seq<int>): seq<Reply>
    requires Valid(p)
  {
    ServeAll(p, Keep(p, stored), Agreed(times))
  }

  function AfterWithExpiry(p: Policy, stored: Option<Bucket>, times: seq<int>): Option<Stored>
    requires Valid(p)
  {
    AfterServing(p, Keep(p, stored), Agreed(times))
  }

  /** A bucket whose key is gone has refilled completely. */
  lemma ExpiredIsFull(p: Policy, b: Bucket, now: int)
    requires Valid(p) && Sane(p, Some(b))
    requires p.period >= 500_000
    requires now - b.ts >= TtlMillis(p)
    ensures Balance(p, Some(b), now) == Capacity(p)
  {
    PeriodRefills(p, TtlMillis(p));
    RefillGrows(p, TtlMillis(p), now - b.ts);
  }

  lemma SameTake(p: Policy, stored: Option<Bucket>, now: int)
    requires Valid(p) && Sane(p, stored) && p.period >= 500_000
    ensures var (b, reply) := Take(p, stored, now);
            Serve(p, Keep(p, stored), Call(now, now)) == (Stored(b, now + TtlMillis(p)), reply)
            && b.ts == now
  {
    if stored.Some? && now > stored.value.ts + TtlMillis(p) {
      ExpiredIsFull(p, stored.value, now);
    }
  }

  /** From half a millisecond on, an expiring bucket is one that never expires, also when the clock runs backwards. */
  lemma {:induction false} SameReplies(p: Policy, stored: Option<Bucket>, times: seq<int>)
    requires Valid(p) && Sane(p, stored) && p.period >= 500_000
    ensures RepliesWithExpiry(p, stored, times) == Replies(p, stored, times)
    ensures AfterWithExpiry(p, stored, times) == Keep(p, After(p, stored, times))
    decreases |times|
  {
    if times != [] {
      var b := Take(p, stored, times[0]).0;
      SameTake(p, stored, times[0]);
      TakeKeepsSane(p, stored, times[0]);
      SameReplies(p, Some(b), times[1..]);
      assert Agreed(times)[1..] == Agreed(times[1..]);
    }
  }

  /** Below half a millisecond the key never survives, so every call finds a full bucket. */
  lemma {:induction false} AlwaysAdmits(p: Policy, stored: Option<Stored>, calls: seq<Call>)
    requires Valid(p) && p.period < 500_000
    ensures Admitted(ServeAll(p, stored, calls)) == |calls|
    decreases |calls|
  {
    if calls != [] {
      var (st, reply) := Serve(p, stored, calls[0]);
      AlwaysAdmits(p, Some(st), calls[1..]);
      var rest := ServeAll(p, Some(st), calls[1..]);
      assert ([reply] + rest)[1..] == rest;
    }
  }

  lemma {:induction false} AgreedLength(times: seq<int>)
    ensures |Agreed(times)| == |times|
  {
    if times != [] {
      AgreedLength(times[1..]);
    }
  }

  function Burst(p: Policy): seq<int>
    requires Valid(p)
  {
    seq(p.limit + 1, _ => 0)
  }

  /** One call too many in a single instant tells the two apart, and breaks the bound. */
  lemma BurstReveals(p: Policy)
    requires Valid(p) && p.period < 500_000
    ensures Nondecreasing(Burst(p)) && Elapsed(Burst(p)) == 0
    ensures Admitted(Replies(p, None, Burst(p))) <= p.limit
    ensures Admitted(RepliesWithExpiry(p, None, Burst(p))) == p.limit + 1
  {
    AgreedLength(Burst(p));
    AlwaysAdmits(p, None, Agreed(Burst(p)));
    ElapsedIsSpan(Burst(p));
    KeptAdmissionBound(p, None, Burst(p));
    assert Refill(p, 0) == 0.0;
  }

  ghost predicate Invisible(p: Policy)
    requires Valid(p)
  {
    forall times :: RepliesWithExpiry(p, None, times) == Replies(p, None, times)
  }

  /**
   Expiry is invisible on every call sequence, even with a clock running backwards, exactly when the
   period is at least half a millisecond, below which twice the period truncates to a TTL of zero.
   */
  lemma ExpiryInvisibleIff(p: Policy)
    requires Valid(p)
    ensures Invisible(p) <==> p.period >= 500_000
  {
    if p.period >= 500_000 {
      forall times ensures RepliesWithExpiry(p, None, times) == Replies(p, None, times) {
        SameReplies(p, None, times);
      }
    } else {
      BurstReveals(p);
    }
  }

  // ---- How much is admitted ----

  ghost predicate AdmissionBounded(p: Policy)
    requires Valid(p)
  {
    forall times :: Admitted(RepliesWithExpiry(p, None, times)) as real <= Capacity(p) + Refill(p, Elapsed(times))
  }

  /**
   Admission bound: on every call sequence, whatever the clock does, the calls admitted are at most
   one full bucket plus the refill over the time that passed forwards. The code keeps this exactly
   when the period is at least half a millisecond.
   */
  lemma AdmissionBoundIff(p: Policy)
    requires Valid(p)
    ensures AdmissionBounded(p) <==> p.period >= 500_000
  {
    if p.period >= 500_000 {
      forall times ensures Admitted(RepliesWithExpiry(p, None, times)) as real <= Capacity(p) + Refill(p, Elapsed(times)) {
        SameReplies(p, None, times);
        KeptAdmissionBound(p, None, times);
      }
    } else {
      BurstReveals(p);
      assert Refill(p, Elapsed(Burst(p))) == 0.0;
    }
  }

  ghost predicate WindowHolds(p: Policy, times: seq<int>, i: nat, j: nat)
    requires Valid(p)
  {
    i < j <= |times| ==>
      && |RepliesWithExpiry(p, None, times)| == |times|
      && Admitted(RepliesWithExpiry(p, None, times)[i..j]) as real <= Capacity(p) + Refill(p, times[j - 1] - times[i])
  }

  ghost predicate WindowBounded(p: Policy)
    requires Valid(p)
  {
    forall times, i: nat, j: nat | Nondecreasing(times) :: WindowHolds(p, times, i, j)
  }

  /**
   With a nondecreasing clock, at most `Limit` calls plus `Limit` per `Period` of its length are
   admitted in every window of every run, again exactly from half a millisecond on.
   */
  lemma WindowBoundIff(p: Policy)
    requires Valid(p)
    ensures WindowBounded(p) <==> p.period >= 500_000
  {
    if p.period >= 500_000 {
      forall times, i: nat, j: nat | Nondecreasing(times) ensures WindowHolds(p, times, i, j) {
        if i < j <= |times| {
          SameReplies(p, None, times);
          KeptWindowBound(p, times, i, j);
        }
      }
    } else {
      BurstReveals(p);
      var n := p.limit + 1;
      var replies := RepliesWithExpiry(p, None, Burst(p));
      assert Refill(p, 0) == 0.0;
      assert |replies| == n ==> replies[0..n] == replies;
      assert !WindowHolds(p, Burst(p), 0, n);
    }
  }
}
