/** The queue and the worker as the objects that run: one Redis store, updated command by command. */
module JobQueue {
  import opened Prelude
  import opened JobRecords
  import opened RedisStore
  import opened Backoff

  /**
   `reached` is how many commands of a pipeline Redis got to, and `replied` whether the reply came
   back: the network decides both.
   */
  datatype Network = Network(reached: nat, replied: bool)

  /** The entry is neither pending nor stored any more. */
  predicate Removed(s: Store, id: EntryId) {
    id !in s.pending && (id < |s.log| ==> id in s.deleted)
  }

  /** Nothing but the fate of this entry differs. */
  ghost predicate OnlyEntry(s: Store, s': Store, id: EntryId) {
    && s'.log == s.log && s'.cursor == s.cursor
    && (forall e | e != id :: (e in s'.pending <==> e in s.pending) && (e in s'.deleted <==> e in s.deleted))
    && (forall e | e in s'.pending :: e in s.pending && s'.pending[e] == s.pending[e])
  }

  /** What a failed attempt leaves in Redis: one record with the error and one more attempt, in one of two places. */
  ghost predicate FailureStored(s: Store, s': Store, nonce: nat, job: Job, text: string, dead: bool) {
    var note := if |text| <= 500 then text else text[..500];
    var record := Sealed(nonce, Job(job.id, job.jobType, job.payload, job.attempts + 1, job.maxAttempts, note));
    if dead then s'.dead == s.dead + [record] && s'.retry == s.retry
    else s'.dead == s.dead && record in s'.retry && s'.retry == s.retry[record := s'.retry[record]]
  }

  lemma ApplyTwo(s: Store, a: Command, b: Command, n: nat)
    requires n <= 2
    ensures ApplyAll(s, [a, b][..n]) == if n == 0 then s else if n == 1 then Apply(s, a) else Apply(Apply(s, a), b)
  {
    assert [a, b][..0] == [] && [a, b][..1] == [a] && [a, b][..2] == [a, b];
    assert [a][1..] == [] && [a, b][1..] == [b] && [b][1..] == [];
    assert ApplyAll(Apply(s, a), [b]) == Apply(Apply(s, a), b);
  }

  lemma ApplyThree(s: Store, a: Command, b: Command, c: Command, n: nat)
    requires n <= 3
    ensures ApplyAll(s, [a, b, c][..n]) == if n == 0 then s else ApplyAll(Apply(s, a), [b, c][..n - 1])
  {
    if n > 0 {
      assert [a, b, c][..n][1..] == [b, c][..n - 1];
    } else {
      assert [a, b, c][..0] == [];
    }
  }

  lemma RemovalIsComplete(s: Store, id: EntryId, n: nat)
    requires n <= 2
    ensures var s' := ApplyAll(s, [XAck(id), XDel(id)][..n]);
            OnlyEntry(s, s', id) && s'.retry == s.retry && s'.dead == s.dead && (n == 2 ==> Removed(s', id)) && (n == 0 ==> s' == s)
  {
    ApplyTwo(s, XAck(id), XDel(id), n);
  }

  /** Promotion as a whole: the listed records are at the end of the stream, in order, and no longer in the retry set. */
  lemma {:induction false} PromotionMoves(s: Store, listing: seq<Blob>)
    ensures var s' := ApplyAll(s, PromotePipeline(listing));
            && s'.log == s.log + listing && s'.retry == s.retry - (set b | b in listing)
            && s'.dead == s.dead && s'.pending == s.pending && s'.deleted == s.deleted && s'.cursor == s.cursor
    decreases |listing|
  {
    if listing == [] {
      assert s.log + listing == s.log;
    } else {
      var b, rest := listing[0], PromotePipeline(listing[1..]);
      var s1 := Apply(Apply(s, XAddStream(b)), ZRem(b));
      var pipe := [XAddStream(b), ZRem(b)] + rest;
      assert PromotePipeline(listing) == pipe && pipe[1..] == [ZRem(b)] + rest && pipe[1..][1..] == rest;
      PromotionMoves(s1, listing[1..]);
      assert s.log + listing == s1.log + listing[1..];
      assert (set x | x in listing) == {b} + (set x | x in listing[1..]);
    }
  }

  class Queue {
    const maxAttempts: int
    const base: int
    const max: int
    var redis: Store
    var nonce: nat

    constructor (redis: Store, maxAttempts: int, base: int, max: int)
      ensures this.redis == redis
      ensures this.maxAttempts >= 1 && (maxAttempts >= 1 ==> this.maxAttempts == maxAttempts)
      ensures 0 < this.base <= this.max
      ensures maxAttempts < 1 ==> this.maxAttempts == 1
      ensures this.base == if base <= 0 then 30_000_000_000 else base
      ensures this.max == if max < this.base then this.base else max
    {
      this.redis := redis;
      this.nonce := 0;
      this.maxAttempts := if maxAttempts < 1 then 1 else maxAttempts;
      var b := if base <= 0 then 30_000_000_000 else base;
      this.base := b;
      this.max := if max < b then b else max;
    }

    /** Sends a pipeline: Redis runs a prefix of it, one command at a time. */
    method Send(pipe: seq<Command>, net: Network) returns (ok: bool)
      requires net.reached <= |pipe|
      modifies this`redis
      ensures redis == ApplyAll(old(redis), pipe[..net.reached])
      ensures ok <==> net.reached == |pipe| && net.replied
    {
      var i := 0;
      while i < net.reached
        invariant 0 <= i <= net.reached
        invariant redis == ApplyAll(old(redis), pipe[..i])
      {
        ApplyAllSnoc(old(redis), pipe[..i], pipe[i]);
        assert pipe[..i + 1] == pipe[..i] + [pipe[i]];
        redis := Apply(redis, pipe[i]);
        i := i + 1;
      }
      ok := net.reached == |pipe| && net.replied;
    }

    method Seal(job: Job) returns (blob: Blob)
      modifies this`nonce
      ensures blob == Sealed(old(nonce), job) && nonce == old(nonce) + 1
      ensures Open(blob) == job
    {
      blob := Sealed(nonce, job);
      nonce := nonce + 1;
    }

    /** `Enqueue` is a delay of zero; `EnqueueIn` treats a negative delay as zero. */
    method Enqueue(jobType: string, payload: string, delay: int, now: int, id: JobId, net: Network)
      returns (r: Result<Job, string>)
      requires net.reached <= 1
      modifies this`redis, this`nonce
      ensures r.Ok? ==> r.value == Job(id, jobType, payload, 0, maxAttempts, "") && net.reached == 1
      ensures jobType == "" ==> r.Err? && redis == old(redis)
      ensures net.reached == 0 ==> redis == old(redis)
      ensures jobType != "" && net.reached == 1 ==>
                var blob := Sealed(old(nonce), Job(id, jobType, payload, 0, maxAttempts, ""));
                redis == if delay > 0 then old(redis).(retry := old(redis).retry[blob := (now + delay) / 1_000_000])
                         else old(redis).(log := old(redis).log + [blob])
    {
      if jobType == "" {
        return Err("jobs: a job type is required");
      }
      var job := Job(id, jobType, payload, 0, maxAttempts, "");
      var blob := Seal(job);
      var command := if delay > 0 then ZAdd(blob, (now + delay) / 1_000_000) else XAddStream(blob);
      var ok := Send([command], net);
      assert net.reached == 1 ==> [command][..net.reached] == [command];
      r := if ok then Ok(job) else Err("jobs: enqueue");
    }

    /** The deliveries of a batch of messages: undecodable entries are handed out with an empty job. */
    method Decode(ids: seq<EntryId>) returns (deliveries: seq<Delivery>)
      requires forall i | 0 <= i < |ids| :: ids[i] < |redis.log|
      ensures deliveries == Deliveries(redis.log, ids)
    {
      deliveries := [];
      var i := 0;
      while i < |ids|
        invariant 0 <= i <= |ids|
        invariant deliveries == Deliveries(redis.log, ids[..i])
      {
        assert ids[..i + 1][..i] == ids[..i];
        var blob := redis.log[ids[i]];
        if !blob.NoField? {
          deliveries := deliveries + [Delivery(ids[i], Open(blob))];
        }
        i := i + 1;
      }
      assert ids[..|ids|] == ids;
    }

    /** Claims the next entries for a consumer: each becomes pending before it is handed out. */
    method Read(consumer: string, count: nat) returns (deliveries: seq<Delivery>)
      requires Wellformed(redis)
      modifies this`redis
      ensures redis == Deliver(old(redis), NextBatch(old(redis), count), consumer) && Wellformed(redis)
      ensures deliveries == Deliveries(old(redis).log, NextBatch(old(redis), count))
      ensures forall d | d in deliveries :: d.id in redis.pending && redis.pending[d.id] == consumer && d.id !in old(redis).pending
      ensures forall id: EntryId :: Live(redis, id) <==> Live(old(redis), id)
    {
      var ids := NextBatch(redis, count);
      DeliverKeepsLive(redis, count, consumer);
      DeliveriesDecode(redis.log, ids);
      redis := Deliver(redis, ids, consumer);
      deliveries := Decode(ids);
    }

    /** Takes over entries left pending by a consumer that stopped. */
    method RecoverStale(consumer: string, idle: set<EntryId>, count: nat) returns (deliveries: seq<Delivery>)
      requires Wellformed(redis)
      modifies this`redis
      ensures redis == old(redis).(pending := Claim(old(redis).pending, Reclaimable(old(redis), idle, count), consumer))
      ensures deliveries == Deliveries(old(redis).log, Reclaimable(old(redis), idle, count))
      ensures Wellformed(redis) && forall id: EntryId :: Live(redis, id) <==> Live(old(redis), id)
      ensures forall id: EntryId | id in old(redis).pending && id in idle ::
                redis.pending[id] == consumer || |Reclaimable(old(redis), idle, count)| == count
    {
      var ids := Reclaimable(redis, idle, count);
      redis := redis.(pending := Claim(redis.pending, ids, consumer));
      deliveries := Decode(ids);
    }

    method Ack(delivery: Delivery, net: Network) returns (ok: bool)
      requires net.reached <= 2
      modifies this`redis
      ensures redis == ApplyAll(old(redis), AckPipeline(delivery.id)[..net.reached])
      ensures ok <==> net.reached == 2 && net.replied
      ensures OnlyEntry(old(redis), redis, delivery.id) && redis.retry == old(redis).retry && redis.dead == old(redis).dead
      ensures net.reached == 2 ==> Removed(redis, delivery.id)
    {
      RemovalIsComplete(redis, delivery.id, net.reached);
      ok := Send([XAck(delivery.id), XDel(delivery.id)], net);
    }

    /** Records a failed attempt: another attempt after a backoff, or the dead-letter stream. */
    method Fail(delivery: Delivery, cause: Cause, now: int, jitter: Option<nat>, conversion: Conversion, net: Network)
      returns (ok: bool)
      requires net.reached <= 3 && base >= 0
      modifies this`redis, this`nonce
      ensures var delay := Jittered(Delay(base, max, delivery.job.attempts + 1, conversion), jitter);
              redis == ApplyAll(old(redis), FailPipeline(delivery, cause, old(nonce), (now + delay) / 1_000_000)[..net.reached])
      ensures nonce == old(nonce) + 1
      ensures ok <==> net.reached == 3 && net.replied
      ensures OnlyEntry(old(redis), redis, delivery.id) && (net.reached == 3 ==> Removed(redis, delivery.id))
      ensures net.reached == 0 ==> redis == old(redis)
      ensures net.reached >= 1 ==>
                FailureStored(old(redis), redis, old(nonce), delivery.job, cause.text,
                  cause.permanent || delivery.job.maxAttempts <= 0 || delivery.job.attempts + 1 >= delivery.job.maxAttempts)
    {
      var job := delivery.job;
      job := job.(attempts := job.attempts + 1);
      job := job.(lastError := Truncate(cause.text, MAX_ERROR_LENGTH));
      var blob := Seal(job);
      var pipe := [];
      if cause.permanent || job.maxAttempts <= 0 || job.attempts >= job.maxAttempts {
        pipe := pipe + [XAddDead(blob)];
      } else {
        var delay := Jittered(Delay(base, max, job.attempts, conversion), jitter);
        pipe := pipe + [ZAdd(blob, (now + delay) / 1_000_000)];
      }
      pipe := pipe + [XAck(delivery.id)];
      pipe := pipe + [XDel(delivery.id)];
      ghost var delay := Jittered(Delay(base, max, delivery.job.attempts + 1, conversion), jitter);
      assert pipe == FailPipeline(delivery, cause, old(nonce), (now + delay) / 1_000_000);
      assert pipe == [pipe[0], XAck(delivery.id), XDel(delivery.id)];
      ApplyThree(redis, pipe[0], XAck(delivery.id), XDel(delivery.id), net.reached);
      if net.reached > 0 {
        RemovalIsComplete(Apply(redis, pipe[0]), delivery.id, net.reached - 1);
      }
      ok := Send(pipe, net);
    }

    static method Promotion(listing: seq<Blob>) returns (pipe: seq<Command>)
      ensures pipe == PromotePipeline(listing)
    {
      pipe := [];
      var i := 0;
      while i < |listing|
        invariant 0 <= i <= |listing|
        invariant pipe == PromotePipeline(listing[..i])
      {
        PromotePipelineSnoc(listing[..i], listing[i]);
        assert listing[..i + 1] == listing[..i] + [listing[i]];
        pipe := pipe + [XAddStream(listing[i]), ZRem(listing[i])];
        i := i + 1;
      }
      assert listing[..i] == listing;
    }

    /** Moves listed retries into the stream: each is added there before it leaves the retry set. */
    method PromoteDue(limit: int, now: int, listing: seq<Blob>, net: Network) returns (r: Result<nat, string>)
      requires IsDueListing(redis.retry, listing, now, if limit <= 0 then 100 else limit)
      requires net.reached <= 2 * |listing|
      modifies this`redis
      ensures redis == ApplyAll(old(redis), PromotePipeline(listing)[..net.reached])
      ensures r.Ok? <==> listing == [] || (net.reached == 2 * |listing| && net.replied)
      ensures r.Ok? ==> r.value == |listing|
      ensures r.Ok? ==> redis.log == old(redis).log + listing && redis.retry == old(redis).retry - (set b | b in listing)
                        && redis.dead == old(redis).dead && redis.pending == old(redis).pending
    {
      PromotionMoves(redis, listing);
      assert net.reached == 2 * |listing| ==> PromotePipeline(listing)[..net.reached] == PromotePipeline(listing);
      if |listing| == 0 {
        assert PromotePipeline(listing)[..net.reached] == [];
        return Ok(0);
      }
      var pipe := Promotion(listing);
      var ok := Send(pipe, net);
      r := if ok then Ok(|listing|) else Err("jobs: promote retries");
    }
  }

  class Worker {
    const queue: Queue
    var handlers: set<string>

    constructor (queue: Queue)
      ensures this.queue == queue && handlers == {}
    {
      this.queue := queue;
      this.handlers := {};
    }

    method Register(jobType: string)
      modifies this
      ensures handlers == old(handlers) + {jobType}
      ensures forall job: Job :: Handled(handlers, job) <==> Handled(old(handlers), job) || (job.jobType == jobType != "")
    {
      handlers := handlers + {jobType};
    }

    /**
     Dispatches one delivery and records its outcome. `failure` is what the handler returned. The
     pipeline sent is the one the dispatch verdict calls for, and the reported result matches it.
     */
    method Handle(delivery: Delivery, failure: Option<Cause>, now: int, jitter: Option<nat>, conversion: Conversion,
                  net: Network) returns (result: string)
      requires queue.base >= 0
      requires net.reached <= if Dispatch(handlers, delivery.job, failure).Complete? then 2 else 3
      modifies queue
      ensures match Dispatch(handlers, delivery.job, failure)
              case Complete =>
                && queue.redis == ApplyAll(old(queue.redis), AckPipeline(delivery.id)[..net.reached])
                && (result == "completed" <==> net.reached == 2 && net.replied)
              case Reject(cause) =>
                var delay := Jittered(Delay(queue.base, queue.max, delivery.job.attempts + 1, conversion), jitter);
                && queue.redis == ApplyAll(old(queue.redis),
                     FailPipeline(delivery, cause, old(queue.nonce), (now + delay) / 1_000_000)[..net.reached])
                && result == ReportedLabel(handlers, delivery.job, cause)
      ensures var job, redis, handled := delivery.job, old(queue.redis), delivery.job.jobType != "" && delivery.job.jobType in handlers;
              && OnlyEntry(redis, queue.redis, delivery.id)
              && (handled && failure.None? ==>
                    && queue.redis.retry == redis.retry && queue.redis.dead == redis.dead
                    && (net.reached == 2 ==> Removed(queue.redis, delivery.id)))
              && (handled && failure.Some? && net.reached >= 1 ==>
                    FailureStored(redis, queue.redis, old(queue.nonce), job, failure.value.text,
                      failure.value.permanent || job.maxAttempts <= 0 || job.attempts + 1 >= job.maxAttempts))
              && (handled && failure.Some? ==>
                    result == if failure.value.permanent || job.attempts + 1 >= job.maxAttempts then "dead_lettered" else "failed")
              && (!handled && net.reached >= 1 ==> |queue.redis.dead| == |redis.dead| + 1 && queue.redis.retry == redis.retry)
              && (!handled ==> result == if job.jobType == "" then "dead_lettered" else "unhandled")
              && (failure.Some? || !handled ==> net.reached == 3 ==> Removed(queue.redis, delivery.id))
    {
      var job := delivery.job;
      if job.jobType == "" {
        result := "dead_lettered";
        var _ := queue.Fail(delivery, Cause("job payload is unreadable", true), now, jitter, conversion, net);
        return;
      }
      if job.jobType !in handlers {
        result := "unhandled";
        var _ := queue.Fail(delivery, Cause("no handler for job type", true), now, jitter, conversion, net);
        return;
      }
      if failure.Some? {
        result := "failed";
        if failure.value.permanent || job.attempts + 1 >= job.maxAttempts {
          result := "dead_lettered";
        }
        var _ := queue.Fail(delivery, failure.value, now, jitter, conversion, net);
        return;
      }
      var ok := queue.Ack(delivery, net);
      if !ok {
        return "";
      }
      result := "completed";
    }
  }

  ghost predicate HasCopy(s: Store, id: JobId) {
    || (exists e: EntryId :: Live(s, e) && s.log[e].Sealed? && s.log[e].job.id == id)
    || (exists b :: b in s.retry && b.Sealed? && b.job.id == id)
    || (exists b :: b in s.dead && b.Sealed? && b.job.id == id)
  }

  /** A command that the server may refuse. */
  function ApplyIf(s: Store, c: Command, accepted: bool): Store {
    if accepted then Apply(s, c) else s
  }

  /**
   Why no command may be refused while later ones apply: if the failing entry is the only copy of
   its job, the job survives exactly when its record was written or the entry was left alone.
   */
  lemma RefusedCommandIff(s: Store, d: Delivery, cause: Cause, nonce: nat, due: int,
                          wrote: bool, acked: bool, deleted: bool)
    requires Wellformed(s) && d.id in s.pending
    requires s.log[d.id].Sealed? && s.log[d.id].job == d.job
    requires forall e: EntryId | Live(s, e) && s.log[e].Sealed? && s.log[e].job.id == d.job.id :: e == d.id
    requires forall b | b in s.retry || b in s.dead :: b.Sealed? ==> b.job.id != d.job.id
    ensures var pipe := FailPipeline(d, cause, nonce, due);
            (HasCopy(ApplyIf(ApplyIf(ApplyIf(s, pipe[0], wrote), pipe[1], acked), pipe[2], deleted), d.job.id)
             <==> wrote || (!acked && !deleted))
  {
    var pipe := FailPipeline(d, cause, nonce, due);
    var s' := ApplyIf(ApplyIf(ApplyIf(s, pipe[0], wrote), pipe[1], acked), pipe[2], deleted);
    if wrote {
      var record := Sealed(nonce, AfterFailure(d.job, cause));
      assert record in s'.retry || record in s'.dead;
    } else if !acked && !deleted {
      assert Live(s', d.id);
    }
  }
}
