/** The Redis-backed limiter as an object: one stored bucket per policy and caller. */
module Limiter {
  import opened Prelude
  import opened TokenBucket
  import opened BucketExpiry
  import opened RetryTime

  /** The key of a bucket. Identifiers are hashed in Redis; distinct identifiers have distinct keys. */
  datatype Key = Key(policy: string, identifier: string)

  datatype Decision = Decision(allowed: bool, limit: int, remaining: int, retryAfterMs: int)

  class RedisLimiter {
    var buckets: map<Key, Stored>

    constructor ()
      ensures buckets == map[]
    {
      buckets := map[];
    }

    /** The bucket under a key that has not expired by `redisNow`. */
    function Find(key: Key, redisNow: int): Option<Bucket>
      reads this
    {
      if key in buckets && redisNow <= buckets[key].expiresAt then Some(buckets[key].bucket) else None
    }

    function At(key: Key): Option<Stored>
      reads this
    {
      if key in buckets then Some(buckets[key]) else None
    }

    /** The script's arithmetic, statement by statement. */
    static method Script(policy: Policy, stored: Option<Bucket>, now: int) returns (bucket: Bucket, reply: Reply)
      requires Valid(policy)
      ensures (bucket, reply) == Take(policy, stored, now)
      ensures reply.allowed <==> reply.retryMs == 0
      ensures reply.retryMs >= 0
    {
      var capacity := Capacity(policy);
      var refill := RefillPerSecond(policy);
      RatePositive(policy);
      var tokens, ts := capacity, now;
      if stored.Some? {
        tokens, ts := stored.value.tokens, stored.value.ts;
      }
      var elapsed := now - ts;
      if elapsed < 0 {
        elapsed := 0;
      }
      assert elapsed == 0 ==> Refill(policy, elapsed) == 0.0;
      tokens := Min(capacity, tokens + elapsed as real / 1000.0 * refill);
      assert tokens == Balance(policy, stored, now);
      var allowed, retryMs := false, 0;
      if tokens >= 1.0 {
        tokens := tokens - 1.0;
        allowed := true;
      } else {
        retryMs := Ceiling((1.0 - tokens) / refill * 1000.0);
        RetryIsExact(policy, tokens, 0);
      }
      bucket, reply := Bucket(tokens, now), Reply(allowed, tokens.Floor, retryMs);
    }

    /**
     Consumes one token for the caller, refilling the bucket first. The reply and the new bucket are
     those of `Take`; no other bucket changes.
     */
    method Allow(policy: Policy, identifier: string, now: int, redisNow: int) returns (r: Result<Decision, string>)
      modifies this
      ensures !Valid(policy) <==> r.Err?
      ensures r.Err? ==> buckets == old(buckets)
      ensures Valid(policy) ==>
                var key := Key(policy.name, identifier);
                var (bucket, reply) := Take(policy, old(Find(key, redisNow)), now);
                && r.value.allowed == reply.allowed
                && r.value.limit == policy.limit
                && r.value.remaining == (if reply.remaining < 0 then 0 else reply.remaining)
                && r.value.retryAfterMs == (if reply.allowed then 0 else reply.retryMs)
                && buckets == if TtlMillis(policy) <= 0 then old(buckets) - {key}
                              else old(buckets)[key := Stored(bucket, redisNow + TtlMillis(policy))]
      ensures Valid(policy) && TtlMillis(policy) > 0 ==>
                var key := Key(policy.name, identifier);
                var (stored, reply) := Serve(policy, old(At(key)), Call(now, redisNow));
                At(key) == Some(stored) && r.value.allowed == reply.allowed
    {
      if policy.name == "" {
        return Err("policy has no name");
      }
      if policy.limit < 1 {
        return Err("policy must allow at least one request");
      }
      if policy.period <= 0 {
        return Err("policy must have a positive period");
      }
      var key := Key(policy.name, identifier);
      var bucket, reply := Script(policy, Find(key, redisNow), now);
      buckets := buckets[key := Stored(bucket, redisNow + TtlMillis(policy))];
      if TtlMillis(policy) <= 0 {
        buckets := buckets - {key};
      }
      r := Ok(Decision(reply.allowed, policy.limit,
                       if reply.remaining < 0 then 0 else reply.remaining,
                       if !reply.allowed && reply.retryMs > 0 then reply.retryMs else 0));
    }
  }
}
