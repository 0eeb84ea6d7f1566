/**
 The queue as a concurrent system. Any number of threads read, reclaim, handle, acknowledge, fail
 and promote jobs against one Redis. A pipeline is a list of commands that other threads interleave
 with and that may be cut off after any prefix; a thread may crash at any point.
 */
module JobProtocol {
  import opened Prelude
  import opened JobRecords
  import opened RedisStore
  import opened Backoff

  const NANOS_PER_MILLI: int := 1_000_000

  /** `periodic` are the job types whose handler re-schedules the job after a successful run. */
  datatype Config = Config(
    handlers: set<string>,
    periodic: set<string>,
    maxAttempts: int,
    base: nat,
    max: nat)

  ghost predicate ValidConfig(cfg: Config) {
    cfg.maxAttempts >= 1 && Configured(cfg.base, cfg.max)
  }

  /** What a thread's pipeline is for. `rest` are the listed retries it has not started to move. */
  datatype Origin =
    | Idle
    | Acking(entry: EntryId)
    | Failing(entry: EntryId)
    | Promoting(now: int, rest: seq<Blob>)

  datatype Thread = Thread(todo: seq<Delivery>, pipe: seq<Command>, origin: Origin)

  const IDLE := Thread([], [], Idle)

  /**
   What happened so far. `settled` are the entries whose failure was recorded, `rescheduled` the
   entries of periodic jobs whose next occurrence was scheduled, `promoted` the retry members that
   were copied to the stream. `due` keeps the score of every record ever put in the retry set,
   `parent` the entry a failure record was written for, `failedAt` the clock (ns) of that failure,
   and `released` the clock (ms) of the promotion that created an entry.
   */
  datatype History = History(
    enqueued: set<JobId>,
    seeded: set<string>,
    succeeded: set<JobId>,
    acked: set<JobId>,
    settled: set<EntryId>,
    rescheduled: set<EntryId>,
    promoted: set<Blob>,
    due: map<Blob, int>,
    parent: map<Blob, EntryId>,
    failedAt: map<Blob, int>,
    released: map<EntryId, int>)

  datatype System = System(
    store: Store,
    threads: map<nat, Thread>,
    nextNonce: nat,
    nextJob: JobId,
    hist: History)

  const INITIAL := System(EMPTY, map[], 0, 1, History({}, {}, {}, {}, {}, {}, {}, map[], map[], map[], map[]))

  /**
   What a handler did. `leaked` is the case of a periodic handler that scheduled the next
   occurrence but got an error back from Redis, so it reports a failure.
   */
  datatype Outcome = Success | Failure(cause: Cause, leaked: bool)

  datatype Step =
    | Enqueue(jobType: string, payload: string, delayed: bool, due: int)
    | Foreign(blob: Blob)
    | Read(t: nat, consumer: string, count: nat)
    | Recover(t: nat, consumer: string, idle: set<EntryId>, count: nat)
    | ListDue(t: nat, listing: seq<Blob>, now: int, limit: nat)
    | Handle(t: nat, outcome: Outcome, clock: int, jitter: Option<nat>, conversion: Conversion, nextDue: int)
    | Exec(t: nat)
    | CutOff(t: nat)
    | Abandon(t: nat, other: nat)
    | Crash(t: nat)

  function ThreadAt(s: System, t: nat): Thread {
    if t in s.threads then s.threads[t] else IDLE
  }

  function NewRecord(cfg: Config, s: System, jobType: string, payload: string): Blob {
    Sealed(s.nextNonce, Job(s.nextJob, jobType, payload, 0, cfg.maxAttempts, ""))
  }

  function RecordEnqueue(cfg: Config, s: System, jobType: string): System {
    s.(nextNonce := s.nextNonce + 1, nextJob := s.nextJob + 1,
       hist := s.hist.(enqueued := s.hist.enqueued + {s.nextJob},
                       seeded := s.hist.seeded + (if jobType in cfg.periodic then {jobType} else {})))
  }

  /** `EnqueueIn` with a positive delay: one ZADD. */
  function Schedule(cfg: Config, s: System, jobType: string, payload: string, due: int): System {
    var blob := NewRecord(cfg, s, jobType, payload);
    var s1 := RecordEnqueue(cfg, s, jobType);
    s1.(store := Apply(s.store, ZAdd(blob, due)), hist := s1.hist.(due := s1.hist.due[blob := due]))
  }

  /** `Enqueue`: one XADD. */
  function Submit(cfg: Config, s: System, jobType: string, payload: string): System {
    RecordEnqueue(cfg, s, jobType).(store := Apply(s.store, XAddStream(NewRecord(cfg, s, jobType, payload))))
  }

  function DueTime(clock: int, delay: int): int {
    (clock + delay) / NANOS_PER_MILLI
  }

  /** The thread calls `Fail`: it seals the updated record and starts the pipeline. */
  function StartFail(cfg: Config, s: System, t: nat, rest: seq<Delivery>, d: Delivery, cause: Cause,
                     clock: int, jitter: Option<nat>, conversion: Conversion): System
  {
    var updated := AfterFailure(d.job, cause);
    var delay := Delay(cfg.base, cfg.max, updated.attempts, conversion);
    if !DrawnFrom(jitter, delay) then s
    else
      var pipe := FailPipeline(d, cause, s.nextNonce, DueTime(clock, Jittered(delay, jitter)));
      s.(nextNonce := s.nextNonce + 1,
         threads := s.threads[t := Thread(rest, pipe, Failing(d.id))],
         hist := s.hist.(failedAt := s.hist.failedAt[Sealed(s.nextNonce, updated) := clock]))
  }

  /** The thread calls `Ack` after its handler succeeded. */
  function StartAck(s: System, t: nat, rest: seq<Delivery>, d: Delivery): System {
    s.(threads := s.threads[t := Thread(rest, AckPipeline(d.id), Acking(d.id))],
       hist := s.hist.(succeeded := s.hist.succeeded + {d.job.id}))
  }

  /** `reschedule` after a successful run: the next occurrence is enqueued before the handler returns. */
  function Rescheduled(cfg: Config, s: System, d: Delivery, nextDue: int): System {
    var s1 := Schedule(cfg, s, d.job.jobType, d.job.payload, nextDue);
    s1.(hist := s1.hist.(rescheduled := s1.hist.rescheduled + {d.id}))
  }

  /** What running the handler does to the queue: a periodic handler schedules the next occurrence. */
  function AfterHandler(cfg: Config, s: System, step: Step, d: Delivery): System
    requires step.Handle?
  {
    if !Handled(cfg.handlers, d.job) || d.job.jobType !in cfg.periodic then s
    else
      match step.outcome
      case Success => Rescheduled(cfg, s, d, step.nextDue)
      case Failure(_, leaked) => if leaked then Schedule(cfg, s, d.job.jobType, d.job.payload, step.nextDue) else s
  }

  /** `Worker.handle` on the next delivery of a thread. */
  function HandleNext(cfg: Config, s: System, step: Step): System
    requires step.Handle?
  {
    var th := ThreadAt(s, step.t);
    if th.todo == [] || th.pipe != [] then s
    else
      var d, rest := th.todo[0], th.todo[1..];
      var failure := if step.outcome.Success? then None else Some(step.outcome.cause);
      var s1 := AfterHandler(cfg, s, step, d);
      match Dispatch(cfg.handlers, d.job, failure)
      case Complete => StartAck(s1, step.t, rest, d)
      case Reject(cause) => StartFail(cfg, s1, step.t, rest, d, cause, step.clock, step.jitter, step.conversion)
  }

  function Recorded(s: System, origin: Origin, c: Command): History {
    var h := s.hist;
    match origin
    case Failing(e) =>
      if c.ZAdd? then h.(settled := h.settled + {e}, parent := h.parent[c.blob := e], due := h.due[c.blob := c.due])
      else if c.XAddDead? then h.(settled := h.settled + {e}, parent := h.parent[c.blob := e])
      else h
    case Acking(e) =>
      if c.XAck? && e < |s.store.log| then h.(acked := h.acked + {Open(s.store.log[e]).id}) else h
    case Promoting(now, rest) =>
      if c.XAddStream? then h.(promoted := h.promoted + {c.blob}, released := h.released[|s.store.log| := now]) else h
    case Idle => h
  }

  /** Redis executes the next command of a thread's pipeline. */
  function ExecNext(s: System, t: nat): System {
    var th := ThreadAt(s, t);
    if th.pipe == [] then s
    else
      var c := th.pipe[0];
      var origin := if th.origin.Promoting? && c.XAddStream? && th.origin.rest != []
                    then th.origin.(rest := th.origin.rest[1..]) else th.origin;
      s.(store := Apply(s.store, c),
         threads := s.threads[t := Thread(th.todo, th.pipe[1..], origin)],
         hist := Recorded(s, th.origin, c))
  }

  /** The deliveries of a batch become the thread's work. */
  function Receive(s: System, t: nat, store: Store, ids: seq<EntryId>): System
    requires forall i | 0 <= i < |ids| :: ids[i] < |s.store.log|
  {
    s.(store := store, threads := s.threads[t := Thread(Deliveries(s.store.log, ids), [], Idle)])
  }

  ghost function Next(cfg: Config, s: System, step: Step): System {
    match step
    case Enqueue(jobType, payload, delayed, due) =>
      if jobType == "" then s
      else if delayed then Schedule(cfg, s, jobType, payload, due)
      else Submit(cfg, s, jobType, payload)
    case Foreign(blob) =>
      if blob.Sealed? then s else s.(store := Apply(s.store, XAddStream(blob)))
    case Read(t, consumer, count) =>
      var th := ThreadAt(s, t);
      if th.todo != [] || th.pipe != [] then s
      else
        var ids := NextBatch(s.store, count);
        Receive(s, t, Deliver(s.store, ids, consumer), ids)
    case Recover(t, consumer, idle, count) =>
      var th := ThreadAt(s, t);
      if th.todo != [] || th.pipe != [] then s
      else
        var ids := Reclaimable(s.store, idle, count);
        Receive(s, t, s.store.(pending := Claim(s.store.pending, ids, consumer)), ids)
    case ListDue(t, listing, now, limit) =>
      var th := ThreadAt(s, t);
      if th.todo != [] || th.pipe != [] || !IsDueListing(s.store.retry, listing, now, limit) then s
      else s.(threads := s.threads[t := Thread([], PromotePipeline(listing), Promoting(now, listing))])
    case Handle(_, _, _, _, _, _) => HandleNext(cfg, s, step)
    case Exec(t) => ExecNext(s, t)
    case CutOff(t) =>
      var th := ThreadAt(s, t);
      s.(threads := s.threads[t := Thread(th.todo, [], Idle)])
    case Abandon(t, other) =>
      // The client stops waiting for the reply while Redis goes on with the pipeline.
      var th := ThreadAt(s, t);
      if ThreadAt(s, other) != IDLE || other == t then s
      else s.(threads := s.threads[t := Thread(th.todo, [], Idle)][other := Thread([], th.pipe, th.origin)])
    case Crash(t) => s.(threads := s.threads[t := IDLE])
  }

  ghost function Run(cfg: Config, s: System, steps: seq<Step>): System {
    if steps == [] then s else Next(cfg, Run(cfg, s, steps[..|steps| - 1]), steps[|steps| - 1])
  }
}
