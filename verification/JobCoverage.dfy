/**
 No job is lost and no periodic schedule vanishes. Both follow from one argument: the copy that
 stands for a job, or for a periodic job type, only disappears after its successor was written.
 */
module JobCoverage {
  import opened Prelude
  import opened JobRecords
  import opened RedisStore
  import opened Backoff
  import opened JobProtocol
  import opened JobInvariant

  /** What must not be lost: one enqueued job, or the schedule of one periodic job type. */
  datatype Key = ById(id: JobId) | ByType(jobType: string)

  predicate Matches(k: Key, job: Job) {
    match k
    case ById(id) => job.id == id
    case ByType(jobType) => job.jobType == jobType
  }

  ghost predicate Tracked(s: System, k: Key) {
    match k
    case ById(id) => id in s.hist.enqueued
    case ByType(jobType) => jobType in s.hist.seeded
  }

  /** Acknowledged after its handler succeeded. A periodic schedule is never done. */
  ghost predicate Done(s: System, k: Key) {
    k.ById? && k.id in s.hist.acked && k.id in s.hist.succeeded
  }

  /** Entries that no longer have to stand for `k`, because something else does. */
  ghost function Relieved(s: System, k: Key): set<EntryId> {
    if k.ById? then s.hist.settled else s.hist.settled + s.hist.rescheduled
  }

  datatype Place = InStream(id: EntryId) | InRetry(blob: Blob) | InDead(blob: Blob)

  ghost predicate At(s: System, k: Key, p: Place) {
    match p
    case InStream(id) =>
      Live(s.store, id) && id !in Relieved(s, k) && s.store.log[id].Sealed? && Matches(k, s.store.log[id].job)
    case InRetry(b) =>
      b in s.store.retry && b !in s.hist.promoted && b.Sealed? && Matches(k, b.job)
    case InDead(b) =>
      b in s.store.dead && b.Sealed? && Matches(k, b.job)
  }

  ghost predicate Covered(s: System, k: Key) {
    exists p :: At(s, k, p)
  }

  ghost predicate Coverage(cfg: Config, s: System) {
    && s.hist.seeded <= cfg.periodic
    && forall k | Tracked(s, k) :: Done(s, k) || Covered(s, k)
  }

  /** Nothing that stands for a key moved. */
  ghost predicate Undisturbed(s: System, s': System) {
    && s.store.log <= s'.store.log
    && (forall id | Live(s.store, id) :: Live(s'.store, id))
    && (forall b | b in s.store.retry :: b in s'.store.retry)
    && (forall b | b in s.store.dead :: b in s'.store.dead)
    && s'.hist.settled == s.hist.settled
    && s'.hist.rescheduled == s.hist.rescheduled
    && s'.hist.promoted == s.hist.promoted
    && s.hist.acked <= s'.hist.acked
    && s.hist.succeeded <= s'.hist.succeeded
  }

  lemma StaysCovered(s: System, s': System, k: Key)
    requires Undisturbed(s, s')
    requires Done(s, k) || Covered(s, k)
    ensures Done(s', k) || Covered(s', k)
  {
    if !Done(s, k) {
      var p :| At(s, k, p);
      assert At(s', k, p);
    }
  }

  lemma UndisturbedKeeps(cfg: Config, s: System, s': System)
    requires Coverage(cfg, s)
    requires Undisturbed(s, s')
    requires s'.hist.enqueued == s.hist.enqueued && s'.hist.seeded == s.hist.seeded
    ensures Coverage(cfg, s')
  {
    forall k | Tracked(s', k) ensures Done(s', k) || Covered(s', k) {
      assert Tracked(s, k);
      StaysCovered(s, s', k);
    }
  }

  /** A new job, and the periodic type it may belong to, are covered by the record just written. */
  lemma EnqueueKeeps(cfg: Config, s: System, jobType: string, payload: string, delayed: bool, due: int)
    requires Inv(cfg, s) && Coverage(cfg, s)
    ensures var s' := if delayed then Schedule(cfg, s, jobType, payload, due) else Submit(cfg, s, jobType, payload);
            Coverage(cfg, s') && (delayed ==> At(s', ByType(jobType), InRetry(NewRecord(cfg, s, jobType, payload))))
  {
    var s' := if delayed then Schedule(cfg, s, jobType, payload, due) else Submit(cfg, s, jobType, payload);
    var b := NewRecord(cfg, s, jobType, payload);
    FreshNonce(cfg, s, b);
    var place := if delayed then InRetry(b) else InStream(|s.store.log|);
    assert At(s', ById(s.nextJob), place) && At(s', ByType(jobType), place);
    forall k | Tracked(s', k) ensures Done(s', k) || Covered(s', k) {
      if Tracked(s, k) {
        StaysCovered(s, s', k);
      } else {
        assert At(s', k, place);
      }
    }
  }

  /** An entry that stands for `k` stays, or hands over to the record of its failure, or its job is done. */
  lemma EntryHandsOver(cfg: Config, s: System, t: nat, k: Key, id: EntryId)
    requires Inv(cfg, s) && Coverage(cfg, s) && Tracked(s, k)
    requires ThreadAt(s, t).pipe != []
    requires At(s, k, InStream(id))
    ensures Done(ExecNext(s, t), k) || Covered(ExecNext(s, t), k)
  {
    var s', th := ExecNext(s, t), ThreadAt(s, t);
    var c := th.pipe[0];
    assert t in s.threads && GoodThread(cfg, s, th);
    PipelineIsCareful(cfg, s, th);
    CommandKeepsLive(s.store, c, id);
    if (c.ZAdd? || c.XAddDead?) && th.origin.entry == id {
      assert At(s', k, if c.ZAdd? then InRetry(c.blob) else InDead(c.blob));
    } else if c == XAck(id) {
      assert MayAck(cfg, s, th.origin, id);
      assert Done(s', k);
    } else {
      assert At(s', k, InStream(id));
    }
  }

  /** A retry member that stands for `k` stays, or hands over to the stream entry made from it. */
  lemma RetryHandsOver(cfg: Config, s: System, t: nat, k: Key, b: Blob)
    requires Inv(cfg, s)
    requires ThreadAt(s, t).pipe != []
    requires At(s, k, InRetry(b))
    ensures Covered(ExecNext(s, t), k)
  {
    var s', th := ExecNext(s, t), ThreadAt(s, t);
    var c := th.pipe[0];
    assert t in s.threads && GoodThread(cfg, s, th);
    PipelineIsCareful(cfg, s, th);
    assert At(s', k, if c == XAddStream(b) then InStream(|s.store.log|) else InRetry(b));
  }

  /** One command of a pipeline: whatever stood for `k` still does, or has handed over. */
  lemma CommandKeepsCovered(cfg: Config, s: System, t: nat, k: Key)
    requires Inv(cfg, s) && Coverage(cfg, s) && Tracked(s, k)
    requires ThreadAt(s, t).pipe != []
    ensures Done(ExecNext(s, t), k) || Covered(ExecNext(s, t), k)
  {
    if !Done(s, k) {
      var p :| At(s, k, p);
      match p
      case InStream(id) => EntryHandsOver(cfg, s, t, k, id);
      case InRetry(b) => RetryHandsOver(cfg, s, t, k, b);
      case InDead(_) => assert At(ExecNext(s, t), k, p);
    }
  }

  lemma ExecKeeps(cfg: Config, s: System, t: nat)
    requires Inv(cfg, s) && Coverage(cfg, s)
    ensures Coverage(cfg, ExecNext(s, t))
  {
    var s' := ExecNext(s, t);
    if ThreadAt(s, t).pipe != [] {
      forall k | Tracked(s', k) ensures Done(s', k) || Covered(s', k) {
        assert Tracked(s, k);
        CommandKeepsCovered(cfg, s, t, k);
      }
    }
  }

  /** A periodic handler schedules the next occurrence before its entry stops standing for the schedule. */
  lemma RescheduledKeeps(cfg: Config, s: System, d: Delivery, nextDue: int)
    requires Inv(cfg, s) && Coverage(cfg, s)
    requires GoodDelivery(s, d)
    ensures Coverage(cfg, Rescheduled(cfg, s, d, nextDue))
  {
    EnqueueKeeps(cfg, s, d.job.jobType, d.job.payload, true, nextDue);
    var s1, s2 := Schedule(cfg, s, d.job.jobType, d.job.payload, nextDue), Rescheduled(cfg, s, d, nextDue);
    var b := NewRecord(cfg, s, d.job.jobType, d.job.payload);
    forall k | Tracked(s2, k) ensures Done(s2, k) || Covered(s2, k) {
      assert Tracked(s1, k);
      if !Done(s1, k) {
        var p :| At(s1, k, p);
        if k.ByType? && p == InStream(d.id) {
          assert At(s2, k, InRetry(b));
        } else {
          assert At(s2, k, p);
        }
      }
    }
  }

  /** Starting a pipeline changes nothing that stands for a job. */
  lemma StartKeeps(cfg: Config, s: System, t: nat, rest: seq<Delivery>, d: Delivery, cause: Cause,
                   clock: int, jitter: Option<nat>, conversion: Conversion)
    requires Coverage(cfg, s)
    ensures Coverage(cfg, StartAck(s, t, rest, d))
    ensures Coverage(cfg, StartFail(cfg, s, t, rest, d, cause, clock, jitter, conversion))
  {
    UndisturbedKeeps(cfg, s, StartAck(s, t, rest, d));
    UndisturbedKeeps(cfg, s, StartFail(cfg, s, t, rest, d, cause, clock, jitter, conversion));
  }

  lemma HandleKeeps(cfg: Config, s: System, step: Step)
    requires Inv(cfg, s) && Coverage(cfg, s)
    requires step.Handle?
    ensures Coverage(cfg, HandleNext(cfg, s, step))
  {
    var th := ThreadAt(s, step.t);
    if th.todo != [] && th.pipe == [] {
      assert GoodThread(cfg, s, th);
      var d, rest := th.todo[0], th.todo[1..];
      RescheduledKeeps(cfg, s, d, step.nextDue);
      EnqueueKeeps(cfg, s, d.job.jobType, d.job.payload, true, step.nextDue);
      var failure := if step.outcome.Success? then None else Some(step.outcome.cause);
      var verdict := Dispatch(cfg.handlers, d.job, failure);
      StartKeeps(cfg, AfterHandler(cfg, s, step, d), step.t, rest, d,
                 if verdict.Reject? then verdict.cause else Cause("", false), step.clock, step.jitter, step.conversion);
    }
  }

  /** Steps that write nothing but an unreadable entry, or only change what threads do next. */
  lemma QuietKeeps(cfg: Config, s: System, step: Step)
    requires Inv(cfg, s) && Coverage(cfg, s)
    requires step.Foreign? || step.Recover? || step.ListDue? || step.CutOff? || step.Abandon? || step.Crash?
    ensures Coverage(cfg, Next(cfg, s, step))
  {
    QuietIsUndisturbed(cfg, s, step);
    UndisturbedKeeps(cfg, s, Next(cfg, s, step));
  }

  lemma QuietIsUndisturbed(cfg: Config, s: System, step: Step)
    requires step.Foreign? || step.Recover? || step.ListDue? || step.CutOff? || step.Abandon? || step.Crash?
    ensures var s' := Next(cfg, s, step);
            Undisturbed(s, s') && s'.hist.enqueued == s.hist.enqueued && s'.hist.seeded == s.hist.seeded
  {
  }

  lemma ReadKeeps(cfg: Config, s: System, t: nat, consumer: string, count: nat)
    requires Inv(cfg, s) && Coverage(cfg, s)
    ensures Coverage(cfg, Next(cfg, s, Read(t, consumer, count)))
  {
    DeliverKeepsLive(s.store, count, consumer);
    UndisturbedKeeps(cfg, s, Next(cfg, s, Read(t, consumer, count)));
  }

  lemma NextKeepsCoverage(cfg: Config, s: System, step: Step)
    requires ValidConfig(cfg) && Inv(cfg, s) && Coverage(cfg, s)
    ensures Coverage(cfg, Next(cfg, s, step))
  {
    match step
    case Enqueue(jobType, payload, delayed, due) => EnqueueKeeps(cfg, s, jobType, payload, delayed, due);
    case Handle(_, _, _, _, _, _) => HandleKeeps(cfg, s, step);
    case Exec(t) => ExecKeeps(cfg, s, t);
    case Read(t, consumer, count) => ReadKeeps(cfg, s, t, consumer, count);
    case _ => QuietKeeps(cfg, s, step);
  }

  lemma {:induction false} RunKeepsCoverage(cfg: Config, steps: seq<Step>)
    requires ValidConfig(cfg)
    ensures Coverage(cfg, Run(cfg, INITIAL, steps))
  {
    if steps != [] {
      var before := steps[..|steps| - 1];
      RunKeepsCoverage(cfg, before);
      RunKeeps(cfg, before);
      NextKeepsCoverage(cfg, Run(cfg, INITIAL, before), steps[|steps| - 1]);
    }
  }

  /** A sealed copy of the job in the stream that a worker can still receive. */
  ghost predicate Deliverable(s: System, k: Key) {
    exists id: EntryId :: Live(s.store, id) && s.store.log[id].Sealed? && Matches(k, s.store.log[id].job)
  }

  ghost predicate AwaitingRetry(s: System, k: Key) {
    exists b :: b in s.store.retry && b.Sealed? && Matches(k, b.job)
  }

  ghost predicate DeadLettered(s: System, k: Key) {
    exists b :: b in s.store.dead && b.Sealed? && Matches(k, b.job)
  }

  /**
   No job is lost: in every run, whatever the interleaving and wherever pipelines are cut off,
   each enqueued job can still be delivered, waits in the retry set, was dead-lettered, or was
   acknowledged after its handler succeeded.
   */
  lemma NoJobLost(cfg: Config, steps: seq<Step>, id: JobId)
    requires ValidConfig(cfg)
    requires id in Run(cfg, INITIAL, steps).hist.enqueued
    ensures var s := Run(cfg, INITIAL, steps);
            || Deliverable(s, ById(id)) || AwaitingRetry(s, ById(id)) || DeadLettered(s, ById(id))
            || (id in s.hist.acked && id in s.hist.succeeded)
  {
    RunKeepsCoverage(cfg, steps);
    var s := Run(cfg, INITIAL, steps);
    assert Tracked(s, ById(id));
    if !Done(s, ById(id)) {
      var p :| At(s, ById(id), p);
    }
  }

  /**
   Periodic schedules never vanish silently: once a periodic job type was enqueued, at every later
   state a copy of it is deliverable or scheduled, or one of its copies was dead-lettered.
   */
  lemma ScheduleNeverVanishes(cfg: Config, steps: seq<Step>, jobType: string)
    requires ValidConfig(cfg)
    requires jobType in Run(cfg, INITIAL, steps).hist.seeded
    ensures var s := Run(cfg, INITIAL, steps);
            || Deliverable(s, ByType(jobType)) || AwaitingRetry(s, ByType(jobType)) || DeadLettered(s, ByType(jobType))
  {
    RunKeepsCoverage(cfg, steps);
    var s := Run(cfg, INITIAL, steps);
    assert Tracked(s, ByType(jobType));
    var p :| At(s, ByType(jobType), p);
  }
}
