/** What every reachable state of the queue satisfies, apart from the coverage of jobs. */
module JobInvariant {
  import opened Prelude
  import opened JobRecords
  import opened RedisStore
  import opened Backoff
  import opened JobProtocol

  ghost predicate GoodRecord(cfg: Config, s: System, b: Blob) {
    b.Sealed? ==>
      && b.nonce < s.nextNonce
      && b.job.jobType != ""
      && b.job.maxAttempts == cfg.maxAttempts
      && InBudget(b.job)
  }

  /** `b` records one more failure of the job delivered as entry `e`. */
  ghost predicate FailureOf(s: System, b: Blob, e: EntryId) {
    && b.Sealed?
    && e < |s.store.log|
    && var before := Open(s.store.log[e]);
       && b.job == before.(attempts := before.attempts + 1, lastError := b.job.lastError)
       && (s.store.log[e].Sealed? ==> s.store.log[e].nonce < b.nonce)
  }

  ghost predicate GoodDelivery(s: System, d: Delivery) {
    d.id < s.store.cursor <= |s.store.log| && d.job == Open(s.store.log[d.id])
  }

  /** A retry is due, to the millisecond, no earlier than the nominal backoff after its failure and no later than half as long again. */
  predicate InTime(failedAt: int, nominal: int, due: int) {
    failedAt + nominal < (due + 1) * 1_000_000 && due * 1_000_000 <= failedAt + nominal + nominal / 2
  }

  /** The score of a failure record respects the nominal backoff of its attempt count. */
  ghost predicate RespectsBackoff(cfg: Config, s: System, b: Blob, due: int) {
    && b.Sealed?
    && b in s.hist.failedAt
    && InTime(s.hist.failedAt[b], Nominal(cfg.base, cfg.max, b.job.attempts), due)
  }

  /** The first command of a `Fail` pipeline that has not run yet. */
  ghost predicate GoodFailure(cfg: Config, s: System, e: EntryId, c: Command) {
    && (c.ZAdd? || c.XAddDead?)
    && FailureOf(s, c.blob, e)
    && c.blob.nonce < s.nextNonce
    && c.blob !in s.hist.due
    && (c.ZAdd? ==> GoodRecord(cfg, s, c.blob) && RespectsBackoff(cfg, s, c.blob, c.due))
  }

  ghost predicate GoodListing(cfg: Config, s: System, now: int, rest: seq<Blob>) {
    forall b | b in rest :: b.Sealed? && GoodRecord(cfg, s, b) && b in s.hist.due && s.hist.due[b] <= now
  }

  ghost predicate GoodAck(cfg: Config, s: System, e: EntryId, pipe: seq<Command>) {
    && e < s.store.cursor <= |s.store.log|
    && s.store.log[e].Sealed?
    && (|| pipe == []
        || (pipe == [XDel(e)] && e !in s.store.pending)
        || (pipe == AckPipeline(e)
            && s.store.log[e].job.id in s.hist.succeeded
            && (s.store.log[e].job.jobType in cfg.periodic ==> e in s.hist.rescheduled)))
  }

  ghost predicate GoodFail(cfg: Config, s: System, e: EntryId, pipe: seq<Command>) {
    && e < s.store.cursor <= |s.store.log|
    && (|| pipe == []
        || (pipe == [XDel(e)] && e !in s.store.pending)
        || (pipe == AckPipeline(e) && e in s.hist.settled)
        || (|pipe| == 3 && pipe[1..] == AckPipeline(e) && GoodFailure(cfg, s, e, pipe[0])))
  }

  ghost predicate GoodPromotion(cfg: Config, s: System, now: int, rest: seq<Blob>, pipe: seq<Command>) {
    && GoodListing(cfg, s, now, rest)
    && (|| pipe == PromotePipeline(rest)
        || (|pipe| > 0 && pipe[0].ZRem? && pipe[0].blob in s.hist.promoted && pipe[1..] == PromotePipeline(rest)))
  }

  ghost predicate GoodThread(cfg: Config, s: System, th: Thread) {
    && (forall d | d in th.todo :: GoodDelivery(s, d))
    && match th.origin
       case Idle => th.pipe == []
       case Acking(e) => GoodAck(cfg, s, e, th.pipe)
       case Failing(e) => GoodFail(cfg, s, e, th.pipe)
       case Promoting(now, rest) => GoodPromotion(cfg, s, now, rest, th.pipe)
  }

  ghost predicate GoodStore(cfg: Config, s: System) {
    && Wellformed(s.store)
    && (forall i | 0 <= i < |s.store.log| :: GoodRecord(cfg, s, s.store.log[i]))
    && (forall b | b in s.hist.due :: b.Sealed? && GoodRecord(cfg, s, b))
    && (forall b | b in s.store.retry :: b in s.hist.due && s.store.retry[b] == s.hist.due[b])
    && (forall b | b in s.hist.failedAt :: b.Sealed? && b.nonce < s.nextNonce)
    && s.hist.promoted <= s.hist.due.Keys
    && s.hist.acked <= s.hist.succeeded
    && (forall e | e in s.hist.settled :: e < s.store.cursor)
    && (forall e | e in s.hist.rescheduled :: e < s.store.cursor)
  }

  /** The record a thread has sealed but not yet written. */
  function InFlight(th: Thread): Option<Blob> {
    if th.origin.Failing? && |th.pipe| == 3 && (th.pipe[0].ZAdd? || th.pipe[0].XAddDead?)
    then Some(th.pipe[0].blob) else None
  }

  ghost predicate DistinctInFlight(s: System) {
    forall t, u | t in s.threads && u in s.threads && t != u && InFlight(s.threads[t]).Some? ::
      InFlight(s.threads[t]) != InFlight(s.threads[u])
  }

  ghost predicate GoodThreads(cfg: Config, s: System) {
    && (forall t | t in s.threads :: GoodThread(cfg, s, s.threads[t]))
    && DistinctInFlight(s)
  }

  ghost predicate Inv(cfg: Config, s: System) {
    GoodStore(cfg, s) && GoodThreads(cfg, s)
  }

  /** What steps of other threads may change under a thread without disturbing it. */
  ghost predicate Extends(s: System, s': System) {
    && s.store.log <= s'.store.log
    && s.store.cursor <= s'.store.cursor <= |s'.store.log|
    && (forall id | id < s.store.cursor && id in s'.store.pending :: id in s.store.pending)
    && s.nextNonce <= s'.nextNonce
    && s.hist.settled <= s'.hist.settled
    && s.hist.succeeded <= s'.hist.succeeded
    && s.hist.rescheduled <= s'.hist.rescheduled
    && s.hist.promoted <= s'.hist.promoted
    && (forall b | b in s.hist.due :: b in s'.hist.due && s'.hist.due[b] == s.hist.due[b])
    && (forall b | b in s.hist.failedAt :: b in s'.hist.failedAt && s'.hist.failedAt[b] == s.hist.failedAt[b])
  }

  lemma ThreadUndisturbed(cfg: Config, s: System, s': System, th: Thread)
    requires GoodThread(cfg, s, th)
    requires Extends(s, s')
    requires InFlight(th).Some? ==> InFlight(th).value !in s'.hist.due
    ensures GoodThread(cfg, s', th)
  {
    match th.origin
    case Idle =>
    case Acking(e) =>
      assert s'.store.log[e] == s.store.log[e];
    case Failing(e) =>
      assert s'.store.log[e] == s.store.log[e];
    case Promoting(now, rest) =>
      assert GoodListing(cfg, s', now, rest);
  }

  /** A step that changes thread `t` alone keeps every thread good, once `t` itself is. */
  lemma OthersUndisturbed(cfg: Config, s: System, s': System, t: nat)
    requires Inv(cfg, s)
    requires Extends(s, s')
    requires forall u | u in s'.threads && u != t :: u in s.threads && s'.threads[u] == s.threads[u]
    requires t in s'.threads ==> GoodThread(cfg, s', s'.threads[t])
    requires forall u | u in s.threads && u != t && InFlight(s.threads[u]).Some? :: InFlight(s.threads[u]).value !in s'.hist.due
    requires t in s'.threads && InFlight(s'.threads[t]).Some? ==>
               forall u | u in s.threads && u != t :: InFlight(s.threads[u]) != InFlight(s'.threads[t])
    ensures GoodThreads(cfg, s')
  {
    forall u | u in s'.threads ensures GoodThread(cfg, s', s'.threads[u]) {
      if u != t {
        ThreadUndisturbed(cfg, s, s', s.threads[u]);
      }
    }
  }

  /** Sealing uses a nonce nobody has seen, so it disturbs no thread. */
  lemma FreshNonce(cfg: Config, s: System, b: Blob)
    requires Inv(cfg, s)
    requires b.Sealed? && b.nonce >= s.nextNonce
    ensures b !in s.hist.due && b !in s.store.retry && b !in s.hist.promoted && b !in s.hist.failedAt
    ensures forall u | u in s.threads :: InFlight(s.threads[u]) != Some(b)
  {
    forall u | u in s.threads ensures InFlight(s.threads[u]) != Some(b) {
      assert GoodThread(cfg, s, s.threads[u]);
    }
  }

  lemma ScheduleKeeps(cfg: Config, s: System, jobType: string, payload: string, due: int)
    requires ValidConfig(cfg) && Inv(cfg, s)
    requires jobType != ""
    ensures Inv(cfg, Schedule(cfg, s, jobType, payload, due))
    ensures Extends(s, Schedule(cfg, s, jobType, payload, due))
  {
    var s' := Schedule(cfg, s, jobType, payload, due);
    var b := NewRecord(cfg, s, jobType, payload);
    FreshNonce(cfg, s, b);
    forall u | u in s'.threads ensures GoodThread(cfg, s', s'.threads[u]) {
      assert GoodThread(cfg, s, s.threads[u]);
      ThreadUndisturbed(cfg, s, s', s.threads[u]);
    }
  }

  lemma SubmitKeeps(cfg: Config, s: System, jobType: string, payload: string)
    requires ValidConfig(cfg) && Inv(cfg, s)
    requires jobType != ""
    ensures Inv(cfg, Submit(cfg, s, jobType, payload))
  {
    var s' := Submit(cfg, s, jobType, payload);
    forall u | u in s'.threads ensures GoodThread(cfg, s', s'.threads[u]) {
      ThreadUndisturbed(cfg, s, s', s.threads[u]);
    }
  }

  lemma ForeignKeeps(cfg: Config, s: System, blob: Blob)
    requires Inv(cfg, s)
    requires !blob.Sealed?
    ensures Inv(cfg, s.(store := Apply(s.store, XAddStream(blob))))
  {
    var s' := s.(store := Apply(s.store, XAddStream(blob)));
    forall u | u in s'.threads ensures GoodThread(cfg, s', s'.threads[u]) {
      ThreadUndisturbed(cfg, s, s', s.threads[u]);
    }
  }

  lemma ReceiveKeeps(cfg: Config, s: System, t: nat, store: Store, ids: seq<EntryId>)
    requires Inv(cfg, s)
    requires forall i | 0 <= i < |ids| :: ids[i] < store.cursor
    requires Wellformed(store)
    requires store == s.store.(cursor := store.cursor, pending := store.pending) && s.store.cursor <= store.cursor
    requires forall id | id < s.store.cursor && id in store.pending :: id in s.store.pending
    ensures Inv(cfg, Receive(s, t, store, ids))
  {
    var s' := Receive(s, t, store, ids);
    DeliveriesDecode(s.store.log, ids);
    OthersUndisturbed(cfg, s, s', t);
  }

  lemma ReadKeeps(cfg: Config, s: System, t: nat, consumer: string, count: nat)
    requires Inv(cfg, s)
    ensures Inv(cfg, Next(cfg, s, Read(t, consumer, count)))
  {
    var ids := NextBatch(s.store, count);
    DeliverKeepsLive(s.store, count, consumer);
    ReceiveKeeps(cfg, s, t, Deliver(s.store, ids, consumer), ids);
  }

  lemma RecoverKeeps(cfg: Config, s: System, t: nat, consumer: string, idle: set<EntryId>, count: nat)
    requires Inv(cfg, s)
    ensures Inv(cfg, Next(cfg, s, Recover(t, consumer, idle, count)))
  {
    var ids := Reclaimable(s.store, idle, count);
    ReceiveKeeps(cfg, s, t, s.store.(pending := Claim(s.store.pending, ids, consumer)), ids);
  }

  lemma ListDueKeeps(cfg: Config, s: System, t: nat, listing: seq<Blob>, now: int, limit: nat)
    requires Inv(cfg, s)
    ensures Inv(cfg, Next(cfg, s, ListDue(t, listing, now, limit)))
  {
    var s' := Next(cfg, s, ListDue(t, listing, now, limit));
    if s' != s {
      assert GoodListing(cfg, s', now, listing);
      OthersUndisturbed(cfg, s, s', t);
    }
  }

  lemma DueAfterNominal(cfg: Config, attempts: int, clock: int, jitter: Option<nat>, conversion: Conversion)
    requires ValidConfig(cfg)
    requires DrawnFrom(jitter, Delay(cfg.base, cfg.max, attempts, conversion))
    ensures InTime(clock, Nominal(cfg.base, cfg.max, attempts),
                   DueTime(clock, Jittered(Delay(cfg.base, cfg.max, attempts, conversion), jitter)))
  {
    BackoffBound(cfg.base, cfg.max, attempts, conversion, jitter);
  }

  /** The pipeline `Fail` starts for a good delivery is a good pipeline. */
  lemma FreshFailureIsGood(cfg: Config, s: System, s': System, d: Delivery, cause: Cause, clock: int, due: int)
    requires Inv(cfg, s) && GoodDelivery(s, d)
    requires var b := Sealed(s.nextNonce, AfterFailure(d.job, cause));
             s' == s.(nextNonce := s.nextNonce + 1, threads := s'.threads,
                      hist := s.hist.(failedAt := s.hist.failedAt[b := clock]))
    requires InTime(clock, Nominal(cfg.base, cfg.max, d.job.attempts + 1), due)
    ensures GoodFail(cfg, s', d.id, FailPipeline(d, cause, s.nextNonce, due))
  {
    var pipe := FailPipeline(d, cause, s.nextNonce, due);
    assert pipe[1..] == AckPipeline(d.id);
    assert GoodRecord(cfg, s, s.store.log[d.id]);
    assert GoodFailure(cfg, s', d.id, pipe[0]);
  }

  lemma FailureClockKeeps(cfg: Config, s: System, b: Blob, clock: int)
    requires Inv(cfg, s)
    requires b.Sealed? && b.nonce == s.nextNonce
    ensures Inv(cfg, s.(nextNonce := s.nextNonce + 1, hist := s.hist.(failedAt := s.hist.failedAt[b := clock])))
  {
    var s' := s.(nextNonce := s.nextNonce + 1, hist := s.hist.(failedAt := s.hist.failedAt[b := clock]));
    forall u | u in s'.threads ensures GoodThread(cfg, s', s'.threads[u]) {
      assert GoodThread(cfg, s, s.threads[u]);
      ThreadUndisturbed(cfg, s, s', s.threads[u]);
    }
  }

  lemma StartFailKeeps(cfg: Config, s: System, t: nat, rest: seq<Delivery>, d: Delivery, cause: Cause,
                       clock: int, jitter: Option<nat>, conversion: Conversion)
    requires ValidConfig(cfg) && Inv(cfg, s)
    requires GoodDelivery(s, d) && forall r | r in rest :: GoodDelivery(s, r)
    ensures Inv(cfg, StartFail(cfg, s, t, rest, d, cause, clock, jitter, conversion))
  {
    var s' := StartFail(cfg, s, t, rest, d, cause, clock, jitter, conversion);
    var delay := Delay(cfg.base, cfg.max, d.job.attempts + 1, conversion);
    if DrawnFrom(jitter, delay) {
      var b := Sealed(s.nextNonce, AfterFailure(d.job, cause));
      FreshNonce(cfg, s, b);
      DueAfterNominal(cfg, d.job.attempts + 1, clock, jitter, conversion);
      FreshFailureIsGood(cfg, s, s', d, cause, clock, DueTime(clock, Jittered(delay, jitter)));
      var th := s'.threads[t];
      assert GoodThread(cfg, s', th);
      var s1 := s'.(threads := s.threads);
      FailureClockKeeps(cfg, s, b, clock);
      ThreadUndisturbed(cfg, s', s1, th);
      AdoptKeeps(cfg, s1, t, th);
    }
  }

  lemma StartAckKeeps(cfg: Config, s: System, t: nat, rest: seq<Delivery>, d: Delivery)
    requires Inv(cfg, s)
    requires GoodDelivery(s, d) && forall r | r in rest :: GoodDelivery(s, r)
    requires d.job.jobType != ""
    requires d.job.jobType in cfg.periodic ==> d.id in s.hist.rescheduled
    ensures Inv(cfg, StartAck(s, t, rest, d))
  {
    OthersUndisturbed(cfg, s, StartAck(s, t, rest, d), t);
  }

  lemma RescheduledKeeps(cfg: Config, s: System, d: Delivery, nextDue: int)
    requires ValidConfig(cfg) && Inv(cfg, s)
    requires GoodDelivery(s, d) && d.job.jobType != ""
    ensures Inv(cfg, Rescheduled(cfg, s, d, nextDue)) && Extends(s, Rescheduled(cfg, s, d, nextDue))
  {
    ScheduleKeeps(cfg, s, d.job.jobType, d.job.payload, nextDue);
    var s1, s2 := Schedule(cfg, s, d.job.jobType, d.job.payload, nextDue), Rescheduled(cfg, s, d, nextDue);
    forall u | u in s2.threads ensures GoodThread(cfg, s2, s2.threads[u]) {
      assert GoodThread(cfg, s1, s1.threads[u]);
      ThreadUndisturbed(cfg, s1, s2, s1.threads[u]);
    }
  }

  lemma AfterHandlerKeeps(cfg: Config, s: System, step: Step, d: Delivery)
    requires ValidConfig(cfg) && Inv(cfg, s)
    requires step.Handle?
    requires GoodDelivery(s, d)
    ensures Inv(cfg, AfterHandler(cfg, s, step, d)) && Extends(s, AfterHandler(cfg, s, step, d))
  {
    if Handled(cfg.handlers, d.job) {
      RescheduledKeeps(cfg, s, d, step.nextDue);
      ScheduleKeeps(cfg, s, d.job.jobType, d.job.payload, step.nextDue);
    }
  }

  lemma HandleKeeps(cfg: Config, s: System, step: Step)
    requires ValidConfig(cfg) && Inv(cfg, s)
    requires step.Handle?
    ensures Inv(cfg, HandleNext(cfg, s, step))
  {
    var th := ThreadAt(s, step.t);
    if th.todo != [] && th.pipe == [] {
      assert GoodThread(cfg, s, th);
      var d, rest := th.todo[0], th.todo[1..];
      AfterHandlerKeeps(cfg, s, step, d);
      var s1 := AfterHandler(cfg, s, step, d);
      assert GoodDelivery(s1, d) && forall r | r in rest :: GoodDelivery(s1, r);
      var failure := if step.outcome.Success? then None else Some(step.outcome.cause);
      match Dispatch(cfg.handlers, d.job, failure)
      case Complete => StartAckKeeps(cfg, s1, step.t, rest, d);
      case Reject(cause) => StartFailKeeps(cfg, s1, step.t, rest, d, cause, step.clock, step.jitter, step.conversion);
    }
  }

  /** An entry is acknowledged once its failure was recorded, or by the thread whose handler succeeded. */
  ghost predicate MayAck(cfg: Config, s: System, origin: Origin, e: EntryId) {
    || e in s.hist.settled
    || (&& origin == Acking(e) && e < |s.store.log| && s.store.log[e].Sealed?
        && s.store.log[e].job.id in s.hist.succeeded
        && (s.store.log[e].job.jobType in cfg.periodic ==> e in s.hist.rescheduled))
  }

  /** What the pipelines of a good thread send: never an XACK or XDEL of an entry that still needs delivery. */
  lemma PipelineIsCareful(cfg: Config, s: System, th: Thread)
    requires GoodStore(cfg, s) && GoodThread(cfg, s, th) && th.pipe != []
    ensures var c := th.pipe[0];
            && (c.XDel? ==> c.id < s.store.cursor && c.id !in s.store.pending)
            && (c.XAck? ==> c.id < s.store.cursor && MayAck(cfg, s, th.origin, c.id))
            && (c.ZRem? ==> c.blob in s.hist.promoted)
            && (c.XAddStream? ==> th.origin.Promoting? && th.origin.rest != [] && c.blob == th.origin.rest[0])
            && (c.ZAdd? || c.XAddDead? ==> InFlight(th) == Some(c.blob) && GoodFailure(cfg, s, th.origin.entry, c))
  {
  }

  /** A thread that has a command to run, in a good state. */
  ghost predicate Running(cfg: Config, s: System, t: nat) {
    GoodStore(cfg, s) && t in s.threads && GoodThread(cfg, s, s.threads[t]) && s.threads[t].pipe != []
  }

  lemma ExecExtends(cfg: Config, s: System, t: nat)
    requires Running(cfg, s, t)
    ensures Extends(s, ExecNext(s, t)) && Wellformed(ExecNext(s, t).store)
  {
    var th := s.threads[t];
    PipelineIsCareful(cfg, s, th);
    CommandKeepsLive(s.store, th.pipe[0], 0);
    ExecRemembers(cfg, s, t);
  }

  /** A command adds to the history and takes nothing back. */
  lemma ExecRemembers(cfg: Config, s: System, t: nat)
    requires Running(cfg, s, t)
    ensures var h, h' := s.hist, ExecNext(s, t).hist;
            && h.settled <= h'.settled && h.promoted <= h'.promoted
            && h'.succeeded == h.succeeded && h'.rescheduled == h.rescheduled && h'.failedAt == h.failedAt
            && (forall b | b in h.due :: b in h'.due && h'.due[b] == h.due[b])
  {
    PipelineIsCareful(cfg, s, s.threads[t]);
  }

  lemma ExecKeepsStore(cfg: Config, s: System, t: nat)
    requires Running(cfg, s, t)
    ensures GoodStore(cfg, ExecNext(s, t)) && Extends(s, ExecNext(s, t))
  {
    ExecExtends(cfg, s, t);
    ExecRemembers(cfg, s, t);
    ExecKeepsRecords(cfg, s, t);
    ExecKeepsRetries(cfg, s, t);
    ExecKeepsMarks(cfg, s, t);
  }

  lemma ExecKeepsMarks(cfg: Config, s: System, t: nat)
    requires Running(cfg, s, t)
    ensures var s' := ExecNext(s, t);
            && s'.hist.acked <= s'.hist.succeeded && s'.nextNonce == s.nextNonce && s'.store.cursor == s.store.cursor
            && (forall e | e in s'.hist.settled :: e < s'.store.cursor)
  {
    PipelineIsCareful(cfg, s, s.threads[t]);
  }

  lemma ExecKeepsRecords(cfg: Config, s: System, t: nat)
    requires Running(cfg, s, t)
    ensures var s' := ExecNext(s, t); forall i | 0 <= i < |s'.store.log| :: GoodRecord(cfg, s', s'.store.log[i])
  {
    var s', th := ExecNext(s, t), s.threads[t];
    PipelineIsCareful(cfg, s, th);
    var c := th.pipe[0];
    if c.XAddStream? {
      assert GoodRecord(cfg, s, c.blob);
    } else {
      assert s'.store.log == s.store.log;
    }
  }

  lemma ExecKeepsRetries(cfg: Config, s: System, t: nat)
    requires Running(cfg, s, t)
    ensures var s' := ExecNext(s, t);
            && (forall b | b in s'.hist.due :: b.Sealed? && GoodRecord(cfg, s', b))
            && (forall b | b in s'.store.retry :: b in s'.hist.due && s'.store.retry[b] == s'.hist.due[b])
            && s'.hist.promoted <= s'.hist.due.Keys
  {
    PipelineIsCareful(cfg, s, s.threads[t]);
  }

  lemma AckAdvances(cfg: Config, s: System, t: nat)
    requires Running(cfg, s, t) && s.threads[t].origin.Acking? && Extends(s, ExecNext(s, t))
    ensures GoodAck(cfg, ExecNext(s, t), s.threads[t].origin.entry, s.threads[t].pipe[1..])
  {
    var e := s.threads[t].origin.entry;
    assert ExecNext(s, t).store.log[e] == s.store.log[e];
  }

  lemma FailAdvances(cfg: Config, s: System, t: nat)
    requires Running(cfg, s, t) && s.threads[t].origin.Failing? && Extends(s, ExecNext(s, t))
    ensures GoodFail(cfg, ExecNext(s, t), s.threads[t].origin.entry, s.threads[t].pipe[1..])
    ensures |s.threads[t].pipe[1..]| < 3
  {
    var e := s.threads[t].origin.entry;
    assert ExecNext(s, t).store.log[e] == s.store.log[e];
  }

  lemma PromotionAdvances(cfg: Config, s: System, t: nat)
    requires Running(cfg, s, t) && s.threads[t].origin.Promoting? && Extends(s, ExecNext(s, t))
    ensures var th := ExecNext(s, t).threads[t];
            th.origin.Promoting? && GoodPromotion(cfg, ExecNext(s, t), th.origin.now, th.origin.rest, th.pipe)
  {
    var th, rest := s.threads[t], s.threads[t].origin.rest;
    if th.pipe == PromotePipeline(rest) {
      assert th.pipe[1..][1..] == PromotePipeline(rest[1..]);
      assert forall b | b in rest[1..] :: b in rest;
    }
  }

  lemma ExecKeepsThread(cfg: Config, s: System, t: nat)
    requires Running(cfg, s, t)
    ensures GoodThread(cfg, ExecNext(s, t), ExecNext(s, t).threads[t])
    ensures InFlight(ExecNext(s, t).threads[t]).None?
  {
    ExecExtends(cfg, s, t);
    match s.threads[t].origin
    case Idle =>
    case Acking(e) => AckAdvances(cfg, s, t);
    case Failing(e) => FailAdvances(cfg, s, t);
    case Promoting(now, rest) => PromotionAdvances(cfg, s, t);
  }

  lemma ExecKeeps(cfg: Config, s: System, t: nat)
    requires Inv(cfg, s)
    ensures Inv(cfg, ExecNext(s, t))
  {
    var s', th := ExecNext(s, t), ThreadAt(s, t);
    if th.pipe != [] {
      assert Running(cfg, s, t);
      ExecKeepsStore(cfg, s, t);
      ExecKeepsThread(cfg, s, t);
      forall u | u in s.threads && u != t && InFlight(s.threads[u]).Some?
        ensures InFlight(s.threads[u]).value !in s'.hist.due
      {
        assert GoodThread(cfg, s, s.threads[u]) && InFlight(s.threads[u]) != InFlight(s.threads[t]);
        StaysInFlight(cfg, s, t, s.threads[u]);
      }
      OthersUndisturbed(cfg, s, s', t);
    }
  }

  /** What another thread has sealed and not yet written is not written by this one. */
  lemma StaysInFlight(cfg: Config, s: System, t: nat, other: Thread)
    requires Running(cfg, s, t) && GoodThread(cfg, s, other)
    requires InFlight(other).Some? && InFlight(other) != InFlight(s.threads[t])
    ensures InFlight(other).value !in ExecNext(s, t).hist.due
  {
    PipelineIsCareful(cfg, s, s.threads[t]);
  }

  lemma StopKeeps(cfg: Config, s: System, t: nat, todo: seq<Delivery>)
    requires Inv(cfg, s)
    requires forall d | d in todo :: d in ThreadAt(s, t).todo
    ensures Inv(cfg, s.(threads := s.threads[t := Thread(todo, [], Idle)]))
  {
    assert GoodThread(cfg, s, ThreadAt(s, t));
    OthersUndisturbed(cfg, s, s.(threads := s.threads[t := Thread(todo, [], Idle)]), t);
  }

  lemma AdoptKeeps(cfg: Config, s: System, other: nat, th: Thread)
    requires Inv(cfg, s) && GoodThread(cfg, s, th)
    requires forall u | u in s.threads && InFlight(s.threads[u]).Some? :: InFlight(s.threads[u]) != InFlight(th)
    ensures Inv(cfg, s.(threads := s.threads[other := th]))
  {
    var s' := s.(threads := s.threads[other := th]);
    ThreadUndisturbed(cfg, s, s', th);
    OthersUndisturbed(cfg, s, s', other);
  }

  lemma AbandonKeeps(cfg: Config, s: System, t: nat, other: nat)
    requires Inv(cfg, s)
    ensures Inv(cfg, Next(cfg, s, Abandon(t, other)))
  {
    var th := ThreadAt(s, t);
    assert GoodThread(cfg, s, th);
    StopKeeps(cfg, s, t, th.todo);
    var s1 := s.(threads := s.threads[t := Thread(th.todo, [], Idle)]);
    ThreadUndisturbed(cfg, s, s1, Thread([], th.pipe, th.origin));
    AdoptKeeps(cfg, s1, other, Thread([], th.pipe, th.origin));
  }

  lemma NextKeeps(cfg: Config, s: System, step: Step)
    requires ValidConfig(cfg) && Inv(cfg, s)
    ensures Inv(cfg, Next(cfg, s, step))
  {
    match step
    case Enqueue(jobType, payload, delayed, due) =>
      if jobType != "" {
        ScheduleKeeps(cfg, s, jobType, payload, due);
        SubmitKeeps(cfg, s, jobType, payload);
      }
    case Foreign(blob) =>
      if !blob.Sealed? {
        ForeignKeeps(cfg, s, blob);
      }
    case Read(t, consumer, count) => ReadKeeps(cfg, s, t, consumer, count);
    case Recover(t, consumer, idle, count) => RecoverKeeps(cfg, s, t, consumer, idle, count);
    case ListDue(t, listing, now, limit) => ListDueKeeps(cfg, s, t, listing, now, limit);
    case Handle(_, _, _, _, _, _) => HandleKeeps(cfg, s, step);
    case Exec(t) => ExecKeeps(cfg, s, t);
    case CutOff(t) => StopKeeps(cfg, s, t, ThreadAt(s, t).todo);
    case Abandon(t, other) => AbandonKeeps(cfg, s, t, other);
    case Crash(t) => StopKeeps(cfg, s, t, []);
  }

  lemma {:induction false} RunKeeps(cfg: Config, steps: seq<Step>)
    requires ValidConfig(cfg)
    ensures Inv(cfg, Run(cfg, INITIAL, steps))
  {
    if steps != [] {
      RunKeeps(cfg, steps[..|steps| - 1]);
      NextKeeps(cfg, Run(cfg, INITIAL, steps[..|steps| - 1]), steps[|steps| - 1]);
    }
  }
}
