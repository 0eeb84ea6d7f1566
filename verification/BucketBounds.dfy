/** What a bucket guarantees over whole runs of calls when its key is kept for good. */
module BucketBounds {
  import opened Prelude
  import opened TokenBucket

  /** Balances the script can leave behind. */
  ghost predicate Sane(p: Policy, stored: Option<Bucket>) {
    stored.Some? ==> 0.0 <= stored.value.tokens <= Capacity(p)
  }

  lemma TakeKeepsSane(p: Policy, stored: Option<Bucket>, now: int)
    requires Valid(p) && Sane(p, stored)
    ensures 0.0 <= Balance(p, stored, now) <= Capacity(p)
    ensures Sane(p, Some(Take(p, stored, now).0))
  {
    if stored.Some? {
      RefillGrows(p, 0, Forward(stored.value.ts, now));
    }
  }

  lemma {:induction false} RunKeepsSane(p: Policy, stored: Option<Bucket>, times: seq<int>)
    requires Valid(p) && Sane(p, stored)
    ensures Sane(p, After(p, stored, times))
    decreases |times|
  {
    if times != [] {
      TakeKeepsSane(p, stored, times[0]);
      RunKeepsSane(p, Some(Take(p, stored, times[0]).0), times[1..]);
    }
  }

  /** Calls admitted from a bucket never exceed its balance plus what flows in. */
  lemma {:induction false} KeptSpendingBound(p: Policy, b: Bucket, times: seq<int>)
    requires Valid(p) && Sane(p, Some(b))
    ensures Admitted(Replies(p, Some(b), times)) as real <= b.tokens + Refill(p, Elapsed([b.ts] + times))
    decreases |times|
  {
    var all := [b.ts] + times;
    if times == [] {
      RefillGrows(p, 0, Elapsed(all));
    } else {
      var (b', reply) := Take(p, Some(b), times[0]);
      TakeKeepsSane(p, Some(b), times[0]);
      KeptSpendingBound(p, b', times[1..]);
      assert [b'.ts] + times[1..] == times && all[1..] == times;
      RefillAdds(p, Forward(b.ts, times[0]), Elapsed(times));
      var rest := Replies(p, Some(b'), times[1..]);
      assert Replies(p, Some(b), times) == [reply] + rest && ([reply] + rest)[1..] == rest;
    }
  }

  /**
   Whatever the clock does, even running backwards, and whatever happened before,
   the calls admitted are at most one full bucket plus the refill over the time that passed forwards.
   */
  lemma KeptAdmissionBound(p: Policy, stored: Option<Bucket>, times: seq<int>)
    requires Valid(p) && Sane(p, stored)
    ensures Admitted(Replies(p, stored, times)) as real <= Capacity(p) + Refill(p, Elapsed(times))
  {
    if times == [] {
      RefillGrows(p, 0, 0);
    } else {
      var (b, reply) := Take(p, stored, times[0]);
      TakeKeepsSane(p, stored, times[0]);
      KeptSpendingBound(p, b, times[1..]);
      assert [b.ts] + times[1..] == times;
      var rest := Replies(p, Some(b), times[1..]);
      assert Replies(p, stored, times) == [reply] + rest && ([reply] + rest)[1..] == rest;
    }
  }

  lemma {:induction false} ElapsedIsSpan(times: seq<int>)
    requires Nondecreasing(times) && times != []
    ensures Elapsed(times) == times[|times| - 1] - times[0]
  {
    if |times| > 1 {
      ElapsedIsSpan(times[1..]);
    }
  }

  type Action = (Option<Bucket>, int) -> (Bucket, Reply)

  /** The replies and the final state of a series of calls, whatever one call does. */
  function Scan(act: Action, stored: Option<Bucket>, times: seq<int>): seq<Reply>
    decreases |times|
  {
    if times == [] then [] else [act(stored, times[0]).1] + Scan(act, Some(act(stored, times[0]).0), times[1..])
  }

  function ScanState(act: Action, stored: Option<Bucket>, times: seq<int>): Option<Bucket>
    decreases |times|
  {
    if times == [] then stored else ScanState(act, Some(act(stored, times[0]).0), times[1..])
  }

  lemma {:induction false} ScanAppend(act: Action, stored: Option<Bucket>, xs: seq<int>, ys: seq<int>)
    ensures Scan(act, stored, xs + ys) == Scan(act, stored, xs) + Scan(act, ScanState(act, stored, xs), ys)
    decreases |xs|
  {
    if xs == [] {
      assert xs + ys == ys;
    } else {
      var (b, reply) := act(stored, xs[0]);
      assert (xs + ys)[0] == xs[0] && (xs + ys)[1..] == xs[1..] + ys;
      ScanAppend(act, Some(b), xs[1..], ys);
      Regroup([reply], Scan(act, Some(b), xs[1..]), Scan(act, ScanState(act, stored, xs), ys));
    }
  }

  lemma Regroup(x: seq<Reply>, y: seq<Reply>, z: seq<Reply>)
    ensures x + (y + z) == (x + y) + z
  {
  }

  lemma {:induction false} ScanLength(act: Action, stored: Option<Bucket>, times: seq<int>)
    ensures |Scan(act, stored, times)| == |times|
    decreases |times|
  {
    if times != [] {
      ScanLength(act, Some(act(stored, times[0]).0), times[1..]);
    }
  }

  /** The replies in a window are those of the state that the calls before it left. */
  lemma ScanWindow(act: Action, stored: Option<Bucket>, times: seq<int>, i: nat, j: nat)
    requires i <= j <= |times|
    ensures |Scan(act, stored, times)| == |times|
    ensures Scan(act, stored, times)[i..j] == Scan(act, ScanState(act, stored, times[..i]), times[i..j])
  {
    var before, window, rest := times[..i], times[i..j], times[j..];
    var start := ScanState(act, stored, before);
    assert times == before + (window + rest);
    ScanAppend(act, stored, before, window + rest);
    ScanAppend(act, start, window, rest);
    ScanLength(act, stored, times);
    ScanLength(act, stored, before);
    ScanLength(act, start, window);
    Slice(Scan(act, stored, before), Scan(act, start, window), Scan(act, ScanState(act, start, window), rest));
  }

  lemma Slice(x: seq<Reply>, y: seq<Reply>, z: seq<Reply>)
    ensures (x + (y + z))[|x|..|x| + |y|] == y
  {
  }

  function Script(p: Policy): Action
    requires Valid(p)
  {
    (stored, now) => Take(p, stored, now)
  }

  lemma {:induction false} RunIsScan(p: Policy, stored: Option<Bucket>, times: seq<int>)
    requires Valid(p)
    ensures Replies(p, stored, times) == Scan(Script(p), stored, times)
    ensures After(p, stored, times) == ScanState(Script(p), stored, times)
    decreases |times|
  {
    if times != [] {
      RunIsScan(p, Some(Take(p, stored, times[0]).0), times[1..]);
    }
  }

  /**
   Over every window of a run with a nondecreasing clock, at most `Limit` calls plus
   `Limit` per `Period` of the window's length are admitted.
   */
  lemma KeptWindowBound(p: Policy, times: seq<int>, i: nat, j: nat)
    requires Valid(p) && Nondecreasing(times) && i < j <= |times|
    ensures |Replies(p, None, times)| == |times|
    ensures Admitted(Replies(p, None, times)[i..j]) as real <= Capacity(p) + Refill(p, times[j - 1] - times[i])
  {
    var start := After(p, None, times[..i]);
    RunIsScan(p, None, times);
    RunIsScan(p, None, times[..i]);
    RunIsScan(p, start, times[i..j]);
    ScanWindow(Script(p), None, times, i, j);
    RunKeepsSane(p, None, times[..i]);
    KeptAdmissionBound(p, start, times[i..j]);
    WindowSpan(times, i, j);
  }

  lemma WindowSpan(times: seq<int>, i: nat, j: nat)
    requires Nondecreasing(times) && i < j <= |times|
    ensures Elapsed(times[i..j]) == times[j - 1] - times[i]
  {
    var window := times[i..j];
    assert window[0] == times[i] && window[|window| - 1] == times[j - 1];
    ElapsedIsSpan(window);
  }

  /** The bound cannot be improved: a full bucket admits `Limit` calls in one instant. */
  lemma {:induction false} BurstAdmits(p: Policy, b: Bucket, n: nat)
    requires Valid(p) && b.tokens == n as real && n <= p.limit
    ensures Admitted(Replies(p, Some(b), seq(n, _ => b.ts))) == n
    ensures After(p, Some(b), seq(n, _ => b.ts)) == Some(Bucket(0.0, b.ts))
    decreases n
  {
    var times := seq(n, _ => b.ts);
    if n > 0 {
      assert Refill(p, 0) == 0.0;
      var (b', reply) := Take(p, Some(b), b.ts);
      assert b' == Bucket((n - 1) as real, b.ts) && reply.allowed;
      BurstAdmits(p, b', n - 1);
      assert times[1..] == seq(n - 1, _ => b.ts);
      var rest := Replies(p, Some(b'), times[1..]);
      assert Replies(p, Some(b), times) == [reply] + rest && ([reply] + rest)[1..] == rest;
    }
  }
}
