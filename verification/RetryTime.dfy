/** How long a denied caller has to wait, and what the Retry-After header makes of it. */
module RetryTime {
  import opened Prelude
  import opened TokenBucket
  import opened BucketBounds
  import opened BucketExpiry
  import opened BucketClocks
  import opened BucketDrift

  lemma CeilingIsLeast(x: real, n: int)
    ensures n as real >= x <==> n >= Ceiling(x)
  {
  }

  /** `retryMs` is the least whole number of milliseconds after which a token is available. */
  lemma RetryIsExact(p: Policy, tokens: real, ms: nat)
    requires Valid(p) && tokens < 1.0
    ensures RefillPerSecond(p) > 0.0
    ensures tokens + Refill(p, ms) >= 1.0 <==> ms >= Ceiling((1.0 - tokens) / RefillPerSecond(p) * 1000.0)
  {
    RatePositive(p);
    var r := RefillPerSecond(p);
    var need := (1.0 - tokens) / r;
    assert need * r == 1.0 - tokens;
    ScaleMonotone(need, ms as real / 1000.0, r);
    assert ms as real / 1000.0 >= need <==> ms as real >= need * 1000.0;
    CeilingIsLeast(need * 1000.0, ms);
  }

  ghost predicate AllDenied(replies: seq<Reply>) {
    forall i | 0 <= i < |replies| :: !replies[i].allowed
  }

  /**
   A denial is harmless: any calls before `t + retryMs` are denied too, and none of them moves the
   moment at which the next call is admitted.
   */
  lemma {:induction false} DenialsAreHarmless(p: Policy, b: Bucket, t: int, retryMs: nat, between: seq<int>, u: int)
    requires Valid(p) && 0.0 <= b.tokens < 1.0 && b.ts <= t + retryMs
    requires forall ms: nat :: b.tokens + Refill(p, ms) >= 1.0 <==> b.ts + ms >= t + retryMs
    requires Nondecreasing([b.ts] + between + [u])
    requires forall i | 0 <= i < |between| :: between[i] < t + retryMs
    ensures AllDenied(Replies(p, Some(b), between))
    ensures Take(p, After(p, Some(b), between), u).1.allowed <==> u >= t + retryMs
    decreases |between|
  {
    var calls := [b.ts] + between + [u];
    if between == [] {
      assert calls[0] <= calls[1];
      assert b.tokens + Refill(p, u - b.ts) >= 1.0 <==> u >= t + retryMs;
    } else {
      var now := between[0];
      assert calls[1] == now && calls[0] <= calls[1];
      assert !(b.tokens + Refill(p, now - b.ts) >= 1.0);
      RefillGrows(p, 0, now - b.ts);
      var b' := Take(p, Some(b), now).0;
      assert b' == Bucket(b.tokens + Refill(p, now - b.ts), now);
      forall ms: nat ensures b'.tokens + Refill(p, ms) >= 1.0 <==> b'.ts + ms >= t + retryMs {
        RefillAdds(p, now - b.ts, ms);
        assert b.tokens + Refill(p, (now - b.ts) + ms) >= 1.0 <==> b.ts + ((now - b.ts) + ms) >= t + retryMs;
      }
      assert calls[1..] == [b'.ts] + between[1..] + [u];
      DenialsAreHarmless(p, b', t, retryMs, between[1..], u);
    }
  }

  lemma DenialSaysWhen(p: Policy, stored: Option<Bucket>, t: int, ms: nat)
    requires Valid(p) && !Take(p, stored, t).1.allowed
    ensures var (b, denial) := Take(p, stored, t);
            && b.ts == t && b.tokens < 1.0 && denial.retryMs > 0
            && (b.tokens + Refill(p, ms) >= 1.0 <==> ms >= denial.retryMs)
  {
    var tokens := Balance(p, stored, t);
    assert Refill(p, 0) == 0.0;
    RetryIsExact(p, tokens, 0);
    RetryIsExact(p, tokens, ms);
  }

  lemma KeptRetryTime(p: Policy, stored: Option<Bucket>, t: int, between: seq<int>, u: int)
    requires Valid(p) && Sane(p, stored)
    requires !Take(p, stored, t).1.allowed
    requires Nondecreasing([t] + between + [u])
    requires forall i | 0 <= i < |between| :: between[i] < t + Take(p, stored, t).1.retryMs
    ensures Take(p, stored, t).1.retryMs > 0
    ensures var (b, denial) := Take(p, stored, t);
            && AllDenied(Replies(p, Some(b), between))
            && (Take(p, After(p, Some(b), between), u).1.allowed <==> u >= t + denial.retryMs)
  {
    var (b, denial) := Take(p, stored, t);
    TakeKeepsSane(p, stored, t);
    DenialSaysWhen(p, stored, t, 0);
    forall ms: nat ensures b.tokens + Refill(p, ms) >= 1.0 <==> t + ms >= t + denial.retryMs {
      DenialSaysWhen(p, stored, t, ms);
    }
    DenialsAreHarmless(p, b, t, denial.retryMs, between, u);
  }

  /** Where a call can be denied at all, the key is kept long enough for its expiry to be invisible. */
  lemma DenialKeepsKey(p: Policy, stored: Option<Bucket>, t: int)
    requires Valid(p) && !Serve(p, Keep(p, stored), Call(t, t)).1.allowed
    ensures p.period >= 500_000
  {
  }

  /**
   After a call denied at `t`, a later call at `u` is admitted if and only if `u` is at least
   `t + retryMs`, whatever denied calls come in between and although the key expires.
   */
  lemma RetryTimeExact(p: Policy, stored: Option<Bucket>, t: int, between: seq<int>, u: int)
    requires Valid(p) && Sane(p, stored)
    requires !Serve(p, Keep(p, stored), Call(t, t)).1.allowed
    requires Nondecreasing([t] + between + [u])
    requires forall i | 0 <= i < |between| :: between[i] < t + Serve(p, Keep(p, stored), Call(t, t)).1.retryMs
    ensures Serve(p, Keep(p, stored), Call(t, t)).1.retryMs > 0
    ensures var (st, denial) := Serve(p, Keep(p, stored), Call(t, t));
            && AllDenied(RepliesWithExpiry(p, Some(st.bucket), between))
            && (Serve(p, AfterWithExpiry(p, Some(st.bucket), between), Call(u, u)).1.allowed <==> u >= t + denial.retryMs)
  {
    DenialKeepsKey(p, stored, t);
    SameTake(p, stored, t);
    KeptRetryTime(p, stored, t, between, u);
    var b := Take(p, stored, t).0;
    TakeKeepsSane(p, stored, t);
    SameReplies(p, Some(b), between);
    RunKeepsSane(p, Some(b), between);
    SameTake(p, After(p, Some(b), between), u);
  }

  lemma RepliesMore(p: Policy, stored: Option<Bucket>, times: seq<int>, u: int)
    requires Valid(p)
    ensures Replies(p, stored, times + [u]) == Replies(p, stored, times) + [Take(p, After(p, stored, times), u).1]
    ensures |Replies(p, stored, times)| == |times|
  {
    RunIsScan(p, stored, times + [u]);
    RunIsScan(p, stored, times);
    ScanAppend(Script(p), stored, times, [u]);
    ScanLength(Script(p), stored, times);
    assert [u][1..] == [];
  }

  lemma {:induction false} ReadingsMore(calls: seq<Call>, last: Call)
    ensures Readings(calls + [last]) == Readings(calls) + [last.now]
  {
    if calls == [] {
      assert [last][1..] == [];
    } else {
      assert (calls + [last])[1..] == calls[1..] + [last];
      ReadingsMore(calls[1..], last);
    }
  }

  /**
   The same on two clocks that drift apart within the slack: after a denial every earlier call is denied
   too, and a later one is admitted if and only if the caller's clock has reached `retryMs`.
   */
  lemma RetryUnderDrift(p: Policy, stored: Option<Stored>, first: Call, between: seq<Call>, last: Call)
    requires Valid(p) && (stored.Some? ==> Sane(p, Some(stored.value.bucket)))
    requires !Serve(p, stored, first).1.allowed
    requires Drift([first] + (between + [last]), Slack(p)) && Nondecreasing([first.now] + Readings(between) + [last.now])
    requires forall i | 0 <= i < |between| :: between[i].now < first.now + Serve(p, stored, first).1.retryMs
    ensures var (st, denial) := Serve(p, stored, first);
            var replies := ServeAll(p, Some(st), between + [last]);
            && |replies| == |between| + 1 && AllDenied(replies[..|between|])
            && (replies[|between|].allowed <==> last.now >= first.now + denial.retryMs)
  {
    var found, st := Found(p, stored, first.redisNow), Serve(p, stored, first).0;
    var times := Readings(between);
    ReadingsAt(between);
    ReadingsMore(between, last);
    TakeKeepsSane(p, found, first.now);
    KeptRetryTime(p, found, first.now, times, last.now);
    DriftIsInvisible(p, first, st.bucket, between + [last], Slack(p));
    RepliesMore(p, Some(st.bucket), times, last.now);
    assert Replies(p, Some(st.bucket), times + [last.now])[..|between|] == Replies(p, Some(st.bucket), times);
  }

  /** The Retry-After header, in whole seconds: truncated, and at least one. */
  function RetryAfterSeconds(retryMs: nat): nat {
    var seconds := retryMs / 1000;
    if seconds < 1 then 1 else seconds
  }

  lemma RetryAfterBound(retryMs: nat)
    ensures RetryAfterSeconds(retryMs) >= 1
    ensures retryMs < 1000 * (RetryAfterSeconds(retryMs) + 1)
    ensures retryMs >= 1000 ==> 1000 * RetryAfterSeconds(retryMs) <= retryMs
  {
  }

  /**
   A client that waits exactly the announced seconds is admitted if and only if the truncation lost
   nothing: the wait was under a second, or a whole number of seconds.
   */
  lemma RetryAfterSufficesIff(p: Policy, stored: Option<Bucket>, t: int)
    requires Valid(p) && Sane(p, stored)
    requires !Serve(p, Keep(p, stored), Call(t, t)).1.allowed
    ensures var (st, denial) := Serve(p, Keep(p, stored), Call(t, t));
            var back := t + 1000 * RetryAfterSeconds(denial.retryMs);
            denial.retryMs > 0
            && (Serve(p, Some(st), Call(back, back)).1.allowed <==> denial.retryMs < 1000 || denial.retryMs % 1000 == 0)
  {
    var (st, denial) := Serve(p, Keep(p, stored), Call(t, t));
    RetryTimeExact(p, stored, t, [], t);
    RetryTimeExact(p, stored, t, [], t + 1000 * RetryAfterSeconds(denial.retryMs));
    assert Agreed([]) == [] && AfterWithExpiry(p, Some(st.bucket), []) == Some(st);
  }

  /** One request per 1.5 seconds: a denied client told to wait one second is denied again. */
  lemma RetryAfterTooShort()
    ensures var p := Policy("auth", 1, 1_500_000_000);
            var st := Serve(p, None, Call(0, 0)).0;
            var (st', denial) := Serve(p, Some(st), Call(0, 0));
            && denial == Reply(false, 0, 1500) && RetryAfterSeconds(1500) == 1
            && !Serve(p, Some(st'), Call(1000, 1000)).1.allowed
  {
    var p := Policy("auth", 1, 1_500_000_000);
    var st := Serve(p, None, Call(0, 0)).0;
    assert st == Stored(Bucket(0.0, 0), 3000);
    assert RefillPerSecond(p) == 1.0 / 1.5;
    assert Refill(p, 0) == 0.0 && Refill(p, 1000) == 1.0 / 1.5;
    var (st', denial) := Serve(p, Some(st), Call(0, 0));
    assert denial.retryMs == Ceiling(1500.0) == 1500;
  }
}
