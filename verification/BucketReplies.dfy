/** What the numbers in a reply mean to the caller. */
module BucketReplies {
  import opened Prelude
  import opened TokenBucket
  import opened BucketBounds
  import opened BucketExpiry
  import opened BucketDrift

  function Least(a: int, b: int): int {
    if a <= b then a else b
  }

  /** Any bucket admits, in one instant, as many calls as it has whole tokens. */
  lemma {:induction false} InstantCounts(p: Policy, b: Bucket, n: nat)
    requires Valid(p) && Sane(p, Some(b))
    ensures Admitted(Replies(p, Some(b), seq(n, _ => b.ts))) == Least(n, b.tokens.Floor)
    decreases n
  {
    var times := seq(n, _ => b.ts);
    if n > 0 {
      assert Refill(p, 0) == 0.0;
      var (b', reply) := Take(p, Some(b), b.ts);
      TakeKeepsSane(p, Some(b), b.ts);
      InstantCounts(p, b', n - 1);
      assert times[1..] == seq(n - 1, _ => b.ts);
      var rest := Replies(p, Some(b'), times[1..]);
      assert Replies(p, Some(b), times) == [reply] + rest && ([reply] + rest)[1..] == rest;
    }
  }

  /** `remaining` is exactly the number of further calls that are admitted at the same instant, after an admission or a denial. */
  lemma RemainingIsExact(p: Policy, stored: Option<Bucket>, t: int, n: nat)
    requires Valid(p) && Sane(p, stored)
    ensures var (b, reply) := Take(p, stored, t);
            reply.remaining >= 0 && Admitted(Replies(p, Some(b), seq(n, _ => t))) == Least(n, reply.remaining)
  {
    TakeKeepsSane(p, stored, t);
    InstantCounts(p, Take(p, stored, t).0, n);
  }

  lemma {:induction false} InstantServes(p: Policy, st: Stored, call: Call, n: nat)
    requires Valid(p) && p.period >= 500_000 && Sane(p, Some(st.bucket))
    requires st.bucket.ts == call.now && st.expiresAt == call.redisNow + TtlMillis(p)
    ensures ServeAll(p, Some(st), Repeat(call, n)) == Replies(p, Some(st.bucket), seq(n, _ => call.now))
    decreases n
  {
    if n > 0 {
      var st' := Serve(p, Some(st), call).0;
      TakeKeepsSane(p, Some(st.bucket), call.now);
      InstantServes(p, st', call, n - 1);
      assert Repeat(call, n)[1..] == Repeat(call, n - 1);
      assert seq(n, _ => call.now)[1..] == seq(n - 1, _ => call.now);
    }
  }

  /** The same for the bucket under its key, whatever the two clocks say; below half a millisecond nothing is limited anyway. */
  lemma ServedRemainingIsExact(p: Policy, stored: Option<Stored>, call: Call, n: nat)
    requires Valid(p) && (stored.Some? ==> Sane(p, Some(stored.value.bucket)))
    ensures var (st, reply) := Serve(p, stored, call);
            Admitted(ServeAll(p, Some(st), Repeat(call, n))) == if p.period >= 500_000 then Least(n, reply.remaining) else n
  {
    var st := Serve(p, stored, call).0;
    if p.period >= 500_000 {
      TakeKeepsSane(p, Found(p, stored, call.redisNow), call.now);
      InstantServes(p, st, call, n);
      RemainingIsExact(p, Found(p, stored, call.redisNow), call.now, n);
    } else {
      AlwaysAdmits(p, Some(st), Repeat(call, n));
    }
  }

  /** The first call of all is admitted, and leaves one less than the limit. */
  lemma FirstCall(p: Policy, call: Call)
    requires Valid(p)
    ensures var reply := Serve(p, None, call).1; reply.allowed && reply.remaining == p.limit - 1 && reply.retryMs == 0
  {
  }

  /** Tokens come back at the rate of `limit` per `period`. */
  lemma RefillIsProportional(p: Policy, ms: int)
    requires Valid(p)
    ensures Refill(p, ms) * p.period as real == p.limit as real * ms as real * 1000000.0
  {
    var seconds := p.period as real / 1000000000.0;
    var r := RefillPerSecond(p);
    assert seconds > 0.0 && r * seconds == p.limit as real;
    assert p.period as real == seconds * 1000000000.0;
    Rearrange(ms as real, r, seconds);
  }

  lemma Rearrange(ms: real, r: real, seconds: real)
    ensures ms / 1000.0 * r * (seconds * 1000000000.0) == r * seconds * ms * 1000000.0
  {
    assert ms / 1000.0 * 1000000000.0 == ms * 1000000.0;
    assert ms / 1000.0 * r * (seconds * 1000000000.0) == (ms / 1000.0 * 1000000000.0) * (r * seconds);
  }

  /** A clock that stands still or steps back brings no tokens: the call finds what was left. */
  lemma StepBackBringsNothing(p: Policy, b: Bucket, now: int)
    requires Valid(p) && Sane(p, Some(b)) && now <= b.ts
    ensures Take(p, Some(b), now).1.allowed <==> b.tokens >= 1.0
    ensures Take(p, Some(b), now).0 == Bucket(if b.tokens >= 1.0 then b.tokens - 1.0 else b.tokens, now)
  {
    assert Refill(p, 0) == 0.0;
  }

  /** The time that counts for the bound: each further reading adds how far it is ahead of the one before, or nothing. */
  lemma {:induction false} ElapsedAdds(times: seq<int>, u: int)
    requires times != []
    ensures var last := times[|times| - 1]; Elapsed(times + [u]) == Elapsed(times) + if u > last then u - last else 0
  {
    if |times| == 1 {
      assert (times + [u])[1..] == [u] && Elapsed([u]) == 0;
    } else {
      assert (times + [u])[1..] == times[1..] + [u];
      ElapsedAdds(times[1..], u);
    }
  }
}
