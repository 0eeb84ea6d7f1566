/** The retry budget of a lineage of records, and when a retry may return to the stream. */
module JobLineage {
  import opened Prelude
  import opened JobRecords
  import opened RedisStore
  import opened Backoff
  import opened JobProtocol
  import opened JobInvariant

  /** A record of at least one failure names the entry it was written for. */
  ghost predicate HasParent(s: System, b: Blob) {
    b.Sealed? && b.job.attempts != 0 ==> b in s.hist.parent
  }

  ghost predicate Lineage(cfg: Config, s: System) {
    && (forall b | b in s.hist.parent :: FailureOf(s, b, s.hist.parent[b]))
    && (forall b | b in s.hist.due :: HasParent(s, b))
    && (forall i | 0 <= i < |s.store.log| :: HasParent(s, s.store.log[i]))
    && (forall b | b in s.store.dead :: b in s.hist.parent)
  }

  ghost predicate Timing(cfg: Config, s: System) {
    && (forall b | b in s.hist.due && b.Sealed? && b.job.attempts > 0 :: RespectsBackoff(cfg, s, b, s.hist.due[b]))
    && (forall i | i in s.hist.released ::
          i < |s.store.log| && s.store.log[i] in s.hist.due && s.hist.due[s.store.log[i]] <= s.hist.released[i])
    && (forall i | 0 <= i < |s.store.log| && s.store.log[i].Sealed? && s.store.log[i].job.attempts > 0 :: i in s.hist.released)
  }

  ghost predicate Traced(cfg: Config, s: System) {
    Lineage(cfg, s) && Timing(cfg, s)
  }

  /** A step that writes no record, or only a first record or an unreadable entry. */
  ghost predicate NoFailureWritten(s: System, s': System) {
    && s.store.log <= s'.store.log
    && (forall i | |s.store.log| <= i < |s'.store.log| :: s'.store.log[i].Sealed? ==> s'.store.log[i].job.attempts == 0)
    && s'.store.dead == s.store.dead
    && s'.hist.parent == s.hist.parent
    && s'.hist.released == s.hist.released
    && (forall b | b in s'.hist.due :: if b in s.hist.due then s'.hist.due[b] == s.hist.due[b] else b.Sealed? && b.job.attempts == 0)
    && s.hist.due.Keys <= s'.hist.due.Keys
    && (forall b | b in s.hist.failedAt :: b in s'.hist.failedAt && s'.hist.failedAt[b] == s.hist.failedAt[b])
  }

  lemma NoFailureKeeps(cfg: Config, s: System, s': System)
    requires Traced(cfg, s)
    requires NoFailureWritten(s, s')
    ensures Traced(cfg, s')
  {
    assert forall i | 0 <= i < |s.store.log| :: s'.store.log[i] == s.store.log[i];
  }

  /** A failure record reaches the retry set or the dead-letter stream. */
  ghost predicate FailureWritten(cfg: Config, s: System, s': System, b: Blob, e: EntryId) {
    && FailureOf(s, b, e) && b !in s.hist.due
    && s'.store.log == s.store.log
    && (s'.store.dead == s.store.dead || s'.store.dead == s.store.dead + [b])
    && s'.hist.parent == s.hist.parent[b := e]
    && s'.hist.released == s.hist.released
    && s'.hist.failedAt == s.hist.failedAt
    && (s'.hist.due == s.hist.due
        || (b in s'.hist.due && RespectsBackoff(cfg, s, b, s'.hist.due[b]) && s'.hist.due == s.hist.due[b := s'.hist.due[b]]))
  }

  /** A retry member listed as due at `now` is copied to the stream. */
  ghost predicate RetryReleased(s: System, s': System, b: Blob, now: int) {
    && b in s.hist.due && s.hist.due[b] <= now
    && s'.store.log == s.store.log + [b]
    && s'.store.dead == s.store.dead
    && s'.hist == s.hist.(promoted := s'.hist.promoted, released := s.hist.released[|s.store.log| := now])
  }

  lemma FailureKeeps(cfg: Config, s: System, s': System, b: Blob, e: EntryId)
    requires Traced(cfg, s)
    requires FailureWritten(cfg, s, s', b, e)
    ensures Traced(cfg, s')
  {
    FailureKeepsLineage(cfg, s, s', b, e);
  }

  lemma FailureKeepsLineage(cfg: Config, s: System, s': System, b: Blob, e: EntryId)
    requires Lineage(cfg, s)
    requires FailureWritten(cfg, s, s', b, e)
    ensures Lineage(cfg, s')
  {
  }

  lemma ReleaseKeeps(cfg: Config, s: System, s': System, b: Blob, now: int)
    requires Traced(cfg, s)
    requires RetryReleased(s, s', b, now)
    ensures Traced(cfg, s')
  {
    ReleaseKeepsLineage(cfg, s, s', b, now);
    assert forall i | 0 <= i < |s.store.log| :: s'.store.log[i] == s.store.log[i];
  }

  lemma ReleaseKeepsLineage(cfg: Config, s: System, s': System, b: Blob, now: int)
    requires Lineage(cfg, s)
    requires RetryReleased(s, s', b, now)
    ensures Lineage(cfg, s')
  {
    assert HasParent(s, b);
    assert forall i | 0 <= i < |s.store.log| :: s'.store.log[i] == s.store.log[i];
  }

  lemma ExecKeepsTrace(cfg: Config, s: System, t: nat)
    requires Inv(cfg, s) && Traced(cfg, s)
    ensures Traced(cfg, ExecNext(s, t))
  {
    var s', th := ExecNext(s, t), ThreadAt(s, t);
    if th.pipe != [] {
      assert t in s.threads && GoodThread(cfg, s, th);
      PipelineIsCareful(cfg, s, th);
      var c := th.pipe[0];
      if c.ZAdd? || c.XAddDead? {
        FailureKeeps(cfg, s, s', c.blob, th.origin.entry);
      } else if c.XAddStream? {
        ReleaseKeeps(cfg, s, s', c.blob, th.origin.now);
      } else {
        NoFailureKeeps(cfg, s, s');
      }
    }
  }

  lemma StartFailKeepsTrace(cfg: Config, s: System, t: nat, rest: seq<Delivery>, d: Delivery, cause: Cause,
                            clock: int, jitter: Option<nat>, conversion: Conversion)
    requires Inv(cfg, s) && Traced(cfg, s)
    ensures Traced(cfg, StartFail(cfg, s, t, rest, d, cause, clock, jitter, conversion))
  {
    FreshNonce(cfg, s, Sealed(s.nextNonce, AfterFailure(d.job, cause)));
    NoFailureKeeps(cfg, s, StartFail(cfg, s, t, rest, d, cause, clock, jitter, conversion));
  }

  lemma EnqueueKeepsTrace(cfg: Config, s: System, jobType: string, payload: string, due: int)
    requires Inv(cfg, s) && Traced(cfg, s)
    ensures Traced(cfg, Schedule(cfg, s, jobType, payload, due))
    ensures Traced(cfg, Submit(cfg, s, jobType, payload))
  {
    FreshNonce(cfg, s, NewRecord(cfg, s, jobType, payload));
    NoFailureKeeps(cfg, s, Schedule(cfg, s, jobType, payload, due));
    NoFailureKeeps(cfg, s, Submit(cfg, s, jobType, payload));
  }

  lemma AfterHandlerKeepsTrace(cfg: Config, s: System, step: Step, d: Delivery)
    requires Inv(cfg, s) && Traced(cfg, s)
    requires step.Handle?
    ensures Traced(cfg, AfterHandler(cfg, s, step, d))
  {
    EnqueueKeepsTrace(cfg, s, d.job.jobType, d.job.payload, step.nextDue);
    NoFailureKeeps(cfg, Schedule(cfg, s, d.job.jobType, d.job.payload, step.nextDue), Rescheduled(cfg, s, d, step.nextDue));
  }

  lemma HandleKeepsTrace(cfg: Config, s: System, step: Step)
    requires ValidConfig(cfg) && Inv(cfg, s) && Traced(cfg, s)
    requires step.Handle?
    ensures Traced(cfg, HandleNext(cfg, s, step))
  {
    var th := ThreadAt(s, step.t);
    if th.todo != [] && th.pipe == [] {
      assert GoodThread(cfg, s, th);
      var d, rest := th.todo[0], th.todo[1..];
      AfterHandlerKeeps(cfg, s, step, d);
      AfterHandlerKeepsTrace(cfg, s, step, d);
      var s1 := AfterHandler(cfg, s, step, d);
      var failure := if step.outcome.Success? then None else Some(step.outcome.cause);
      match Dispatch(cfg.handlers, d.job, failure)
      case Complete => NoFailureKeeps(cfg, s1, StartAck(s1, step.t, rest, d));
      case Reject(cause) => StartFailKeepsTrace(cfg, s1, step.t, rest, d, cause, step.clock, step.jitter, step.conversion);
    }
  }

  lemma QuietKeepsTrace(cfg: Config, s: System, step: Step)
    requires Traced(cfg, s)
    requires !step.Handle? && !step.Exec? && !step.Enqueue?
    ensures Traced(cfg, Next(cfg, s, step))
  {
    QuietWritesNoFailure(cfg, s, step);
    NoFailureKeeps(cfg, s, Next(cfg, s, step));
  }

  lemma QuietWritesNoFailure(cfg: Config, s: System, step: Step)
    requires !step.Handle? && !step.Exec? && !step.Enqueue?
    ensures NoFailureWritten(s, Next(cfg, s, step))
  {
  }

  lemma NextKeepsTrace(cfg: Config, s: System, step: Step)
    requires ValidConfig(cfg) && Inv(cfg, s) && Traced(cfg, s)
    ensures Traced(cfg, Next(cfg, s, step))
  {
    match step
    case Handle(_, _, _, _, _, _) => HandleKeepsTrace(cfg, s, step);
    case Exec(t) => ExecKeepsTrace(cfg, s, t);
    case Enqueue(jobType, payload, _, due) => EnqueueKeepsTrace(cfg, s, jobType, payload, due);
    case _ => QuietKeepsTrace(cfg, s, step);
  }

  lemma {:induction false} RunKeepsTrace(cfg: Config, steps: seq<Step>)
    requires ValidConfig(cfg)
    ensures Traced(cfg, Run(cfg, INITIAL, steps))
  {
    if steps != [] {
      var before := steps[..|steps| - 1];
      RunKeepsTrace(cfg, before);
      RunKeeps(cfg, before);
      NextKeepsTrace(cfg, Run(cfg, INITIAL, before), steps[|steps| - 1]);
    }
  }

  /** How many failures lie behind a record, following each record to the delivery it was written for. */
  ghost function Failures(s: System, b: Blob): nat
    decreases if b.Sealed? then b.nonce + 1 else 0
  {
    if b !in s.hist.parent || !FailureOf(s, b, s.hist.parent[b]) then 0
    else 1 + Failures(s, s.store.log[s.hist.parent[b]])
  }

  /** The attempt counter of a record is exactly the number of failures in its lineage. */
  lemma {:induction false} AttemptsCountFailures(cfg: Config, s: System, b: Blob)
    requires Inv(cfg, s) && Traced(cfg, s)
    requires b.Sealed? && b.job.jobType != "" && b.job.attempts >= 0
    requires b in s.hist.parent || b.job.attempts == 0
    ensures Failures(s, b) == b.job.attempts
    decreases b.nonce
  {
    if b in s.hist.parent {
      var e := s.hist.parent[b];
      assert FailureOf(s, b, e);
      var before := s.store.log[e];
      assert GoodRecord(cfg, s, before) && HasParent(s, before);
      AttemptsCountFailures(cfg, s, before);
    }
  }

  /**
   The retry budget holds in every run: a record in the stream or the retry set has seen fewer than
   `MaxAttempts` failures, and a dead letter of a readable job at most `MaxAttempts`.
   */
  lemma RetryBudget(cfg: Config, steps: seq<Step>, b: Blob)
    requires ValidConfig(cfg)
    requires b.Sealed? && b.job.jobType != ""
    requires var s := Run(cfg, INITIAL, steps); b in s.store.log || b in s.store.retry || b in s.store.dead
    ensures var s := Run(cfg, INITIAL, steps);
            && Failures(s, b) == b.job.attempts <= cfg.maxAttempts
            && (b in s.store.log || b in s.store.retry ==> Failures(s, b) < cfg.maxAttempts)
  {
    RunKeeps(cfg, steps);
    RunKeepsTrace(cfg, steps);
    var s := Run(cfg, INITIAL, steps);
    if b in s.store.log || b in s.store.retry {
      assert GoodRecord(cfg, s, b) && HasParent(s, b);
    } else {
      var e := s.hist.parent[b];
      assert FailureOf(s, b, e) && GoodRecord(cfg, s, s.store.log[e]);
    }
    AttemptsCountFailures(cfg, s, b);
  }

  /**
   No retry is early: in every run, a stream entry holding a record of `n` failures was put there at
   a clock reading, in milliseconds, that has reached its last failure plus the nominal backoff of `n`.
   */
  lemma NoEarlyRetry(cfg: Config, steps: seq<Step>, i: EntryId)
    requires ValidConfig(cfg)
    requires var s := Run(cfg, INITIAL, steps);
             i < |s.store.log| && s.store.log[i].Sealed? && s.store.log[i].job.attempts > 0
    ensures var s := Run(cfg, INITIAL, steps);
            var b := s.store.log[i];
            && i in s.hist.released && b in s.hist.failedAt
            && s.hist.failedAt[b] + Nominal(cfg.base, cfg.max, b.job.attempts) < (s.hist.released[i] + 1) * 1_000_000
  {
    RunKeepsTrace(cfg, steps);
  }

  /** In every run, a retry is due no later than one and a half times its nominal backoff after the failure, and no earlier than it. */
  lemma RetryIsDueInTime(cfg: Config, steps: seq<Step>, b: Blob)
    requires ValidConfig(cfg)
    requires b in Run(cfg, INITIAL, steps).store.retry && b.Sealed? && b.job.attempts > 0
    ensures var s := Run(cfg, INITIAL, steps);
            var d := Nominal(cfg.base, cfg.max, b.job.attempts);
            && b in s.hist.failedAt
            && s.hist.failedAt[b] + d < (s.store.retry[b] + 1) * 1_000_000
            && s.store.retry[b] * 1_000_000 <= s.hist.failedAt[b] + d + d / 2
  {
    RunKeeps(cfg, steps);
    RunKeepsTrace(cfg, steps);
    assert b in Run(cfg, INITIAL, steps).hist.due;
  }

  /**
   In every run, the outcome a worker reports for a job it fails, readable or not and with or without
   a handler, is "failed" exactly when `Fail` schedules another attempt. Otherwise it is dead-lettered,
   and the report says so or that no handler was known.
   */
  lemma LabelsAreTrue(cfg: Config, steps: seq<Step>, t: nat, d: Delivery, failure: Option<Cause>)
    requires ValidConfig(cfg)
    requires d in ThreadAt(Run(cfg, INITIAL, steps), t).todo
    requires Dispatch(cfg.handlers, d.job, failure).Reject?
    ensures var cause := Dispatch(cfg.handlers, d.job, failure).cause;
            var reported := ReportedLabel(cfg.handlers, d.job, cause);
            && (reported == "failed" <==> !DeadLetters(AfterFailure(d.job, cause), cause))
            && (reported != "failed" ==> reported == if d.job.jobType == "" || d.job.jobType in cfg.handlers then "dead_lettered" else "unhandled")
  {
    RunKeeps(cfg, steps);
    var s := Run(cfg, INITIAL, steps);
    assert GoodThread(cfg, s, ThreadAt(s, t));
    assert GoodRecord(cfg, s, s.store.log[d.id]);
    LabelAgreesIff(d.job, Dispatch(cfg.handlers, d.job, failure).cause);
    assert |"failed"| != |"unhandled"| && |"failed"| != |"dead_lettered"|;
  }
}
