/** What becomes of a failure depends on the error the handler returned, in every run. */
module JobCauses {
  import opened Prelude
  import opened JobRecords
  import opened RedisStore
  import opened Backoff
  import opened JobProtocol
  import opened JobInvariant
  import JobLineage

  /** A handler known to the worker has just returned an error for the next delivery of its thread. */
  ghost predicate Fails(cfg: Config, s: System, step: Step) {
    && step.Handle? && step.outcome.Failure?
    && ThreadAt(s, step.t).todo != [] && ThreadAt(s, step.t).pipe == []
    && ThreadAt(s, step.t).todo[0].job.jobType != "" && ThreadAt(s, step.t).todo[0].job.jobType in cfg.handlers
    && ThreadAt(Next(cfg, s, step), step.t).pipe != []
  }

  /** The error returned by a handler, under the nonce the record of the failure was sealed with. */
  ghost function Returned(cfg: Config, steps: seq<Step>): map<nat, Cause> {
    if steps == [] then map[]
    else
      var before, step := steps[..|steps| - 1], steps[|steps| - 1];
      Noted(cfg, Returned(cfg, before), Run(cfg, INITIAL, before), step)
  }

  ghost function Noted(cfg: Config, returned: map<nat, Cause>, s: System, step: Step): map<nat, Cause> {
    if Fails(cfg, s, step) && Next(cfg, s, step).nextNonce > 0
    then returned[Next(cfg, s, step).nextNonce - 1 := step.outcome.cause] else returned
  }

  /** The error text a record keeps: all of it, or its first 500 characters. */
  predicate IsNote(note: string, text: string) {
    |note| <= 500 && note <= text && (|text| <= 500 ==> note == text)
  }

  /** A record of a failure that is tried again: the handler returned an error, and not a permanent one. */
  predicate Transient(returned: map<nat, Cause>, b: Blob) {
    b.Sealed? && b.job.attempts > 0 ==>
      b.nonce in returned && !returned[b.nonce].permanent && IsNote(b.job.lastError, returned[b.nonce].text)
  }

  /** A dead letter of a job whose handler ran: a permanent error, or the budget is used up. */
  predicate Deserved(returned: map<nat, Cause>, b: Blob) {
    b.Sealed? && b.nonce in returned ==>
      && (returned[b.nonce].permanent || b.job.attempts >= b.job.maxAttempts)
      && IsNote(b.job.lastError, returned[b.nonce].text)
  }

  predicate Old(s: System, b: Blob) {
    b.Sealed? ==> b.nonce < s.nextNonce
  }

  predicate CommandOk(s: System, returned: map<nat, Cause>, c: Command) {
    && (c.ZAdd? ==> Transient(returned, c.blob))
    && (c.XAddDead? ==> Old(s, c.blob) && Deserved(returned, c.blob))
  }

  ghost predicate PipeOk(s: System, returned: map<nat, Cause>, pipe: seq<Command>) {
    forall i | 0 <= i < |pipe| :: CommandOk(s, returned, pipe[i])
  }

  ghost predicate CausesOk(s: System, returned: map<nat, Cause>) {
    && (forall n | n in returned :: n < s.nextNonce)
    && (forall b | b in s.hist.due :: Transient(returned, b))
    && (forall b | b in s.store.dead :: Old(s, b) && Deserved(returned, b))
    && (forall t | t in s.threads :: PipeOk(s, returned, s.threads[t].pipe))
  }

  /** A step that writes no record of a failure, with pipelines that were there before or carry none. */
  ghost predicate Harmless(s: System, s': System) {
    && s.nextNonce <= s'.nextNonce && s'.store.dead == s.store.dead
    && (forall b | b in s'.hist.due :: b in s.hist.due || (b.Sealed? && b.job.attempts == 0))
    && (forall t | t in s'.threads :: Familiar(s, s'.threads[t].pipe))
  }

  ghost predicate Familiar(s: System, pipe: seq<Command>) {
    || (exists t :: t in s.threads && pipe == s.threads[t].pipe)
    || (forall i | 0 <= i < |pipe| :: !pipe[i].ZAdd? && !pipe[i].XAddDead?)
  }

  lemma HarmlessKeeps(s: System, s': System, returned: map<nat, Cause>)
    requires CausesOk(s, returned) && Harmless(s, s')
    ensures CausesOk(s', returned)
  {
    forall t | t in s'.threads ensures PipeOk(s', returned, s'.threads[t].pipe) {
      var pipe := s'.threads[t].pipe;
      if u :| u in s.threads && pipe == s.threads[u].pipe {
        assert PipeOk(s, returned, pipe);
      }
    }
  }

  lemma {:induction false} PromotionIsHarmless(due: seq<Blob>)
    ensures forall i | 0 <= i < |PromotePipeline(due)| :: !PromotePipeline(due)[i].ZAdd? && !PromotePipeline(due)[i].XAddDead?
  {
    if due != [] {
      PromotionIsHarmless(due[1..]);
    }
  }

  lemma QuietKeeps(cfg: Config, s: System, step: Step, returned: map<nat, Cause>)
    requires CausesOk(s, returned) && !step.Handle? && !step.Exec?
    ensures CausesOk(Next(cfg, s, step), returned)
  {
    if step.ListDue? {
      PromotionIsHarmless(step.listing);
    }
    QuietIsHarmless(cfg, s, step);
    HarmlessKeeps(s, Next(cfg, s, step), returned);
  }

  lemma QuietIsHarmless(cfg: Config, s: System, step: Step)
    requires !step.Handle? && !step.Exec?
    ensures Harmless(s, Next(cfg, s, step))
  {
    var s' := Next(cfg, s, step);
    if step.ListDue? {
      PromotionIsHarmless(step.listing);
    }
    forall t | t in s'.threads ensures Familiar(s, s'.threads[t].pipe) {
      if step.Abandon? && t == step.other && s' != s {
        assert s'.threads[t].pipe == ThreadAt(s, step.t).pipe;
      }
    }
  }

  lemma ExecKeepsCauses(s: System, t: nat, returned: map<nat, Cause>)
    requires CausesOk(s, returned)
    ensures CausesOk(ExecNext(s, t), returned)
  {
    var s', th := ExecNext(s, t), ThreadAt(s, t);
    if th.pipe != [] {
      assert PipeOk(s, returned, th.pipe) && CommandOk(s, returned, th.pipe[0]);
      forall u | u in s'.threads ensures PipeOk(s', returned, s'.threads[u].pipe) {
        if u == t {
          forall i | 0 <= i < |th.pipe[1..]| ensures CommandOk(s', returned, th.pipe[1..][i]) {
            assert CommandOk(s, returned, th.pipe[i + 1]);
          }
        } else {
          assert PipeOk(s, returned, s.threads[u].pipe);
        }
      }
    }
  }

  // ---- Handling a delivery ----

  /** Running a handler starts at most one pipeline, writes first records at most, and leaves other threads alone. */
  lemma HandlerWritesLittle(cfg: Config, s: System, step: Step)
    requires step.Handle?
    ensures var s' := Next(cfg, s, step);
            && s.nextNonce <= s'.nextNonce && s'.store.dead == s.store.dead
            && (forall b | b in s'.hist.due :: b in s.hist.due || (b.Sealed? && b.job.attempts == 0))
            && (forall u | u in s'.threads && u != step.t :: u in s.threads && s'.threads[u] == s.threads[u])
  {
  }

  /**
   What a returned error leads to: the record of the failure carries one more attempt and the error, and
   is sent to the dead letters exactly when the error is permanent or no attempt is left.
   */
  lemma FailureIsRecorded(cfg: Config, s: System, step: Step)
    requires Fails(cfg, s, step)
    ensures var d, cause, s' := ThreadAt(s, step.t).todo[0], step.outcome.cause, Next(cfg, s, step);
            && step.t in s'.threads && s'.nextNonce > s.nextNonce
            && var pipe := s'.threads[step.t].pipe;
               && |pipe| == 3 && pipe[1] == XAck(d.id) && pipe[2] == XDel(d.id)
               && (pipe[0].ZAdd? || pipe[0].XAddDead?)
               && (pipe[0].XAddDead? <==> cause.permanent || d.job.maxAttempts <= 0 || d.job.attempts + 1 >= d.job.maxAttempts)
               && pipe[0].blob.Sealed? && pipe[0].blob.nonce == s'.nextNonce - 1
               && pipe[0].blob.job == d.job.(attempts := d.job.attempts + 1, lastError := pipe[0].blob.job.lastError)
               && IsNote(pipe[0].blob.job.lastError, cause.text)
  {
  }

  /** No returned error goes unrecorded: the worker always goes on, with any jitter that can be drawn below half the delay. */
  lemma ErrorIsRecordedIff(cfg: Config, s: System, step: Step)
    requires ValidConfig(cfg) && step.Handle? && step.outcome.Failure? && ThreadAt(s, step.t).todo != [] && ThreadAt(s, step.t).pipe == []
    requires var job := ThreadAt(s, step.t).todo[0].job; job.jobType != "" && job.jobType in cfg.handlers
    ensures var half := Nominal(cfg.base, cfg.max, ThreadAt(s, step.t).todo[0].job.attempts + 1) / 2;
            Fails(cfg, s, step) <==> step.jitter.None? || half == 0 || step.jitter.value < half
  {
    DelayIsNominal(cfg.base, cfg.max, ThreadAt(s, step.t).todo[0].job.attempts + 1, step.conversion);
  }

  /** A delivery that no handler fails starts no pipeline but an acknowledgement, or the dead letter of an unknown job. */
  lemma OthersStartLittle(cfg: Config, s: System, step: Step)
    requires step.Handle? && !Fails(cfg, s, step) && step.t in Next(cfg, s, step).threads
    ensures var s' := Next(cfg, s, step);
            var pipe := s'.threads[step.t].pipe;
            || Familiar(s, pipe)
            || (|pipe| == 3 && pipe[0].XAddDead? && pipe[0].blob.Sealed? && pipe[0].blob.nonce == s'.nextNonce - 1 >= s.nextNonce
                && pipe[1].XAck? && pipe[2].XDel?)
  {
    var th := ThreadAt(s, step.t);
    if th.todo != [] && th.pipe == [] {
      var pipe := Next(cfg, s, step).threads[step.t].pipe;
      assert AckPipeline(th.todo[0].id) == [XAck(th.todo[0].id), XDel(th.todo[0].id)];
    } else {
      assert Next(cfg, s, step) == s;
    }
  }

  /** The errors noted so far stay, and a new one has a new nonce. */
  ghost predicate Grows(s: System, s': System, returned: map<nat, Cause>, returned': map<nat, Cause>) {
    && s.nextNonce <= s'.nextNonce
    && (forall n | n in returned :: n < s.nextNonce && n in returned' && returned'[n] == returned[n])
    && (forall n | n in returned' :: n in returned || s.nextNonce <= n < s'.nextNonce)
  }

  lemma NotesGrow(cfg: Config, s: System, step: Step, returned: map<nat, Cause>)
    requires CausesOk(s, returned) && step.Handle?
    ensures Grows(s, Next(cfg, s, step), returned, Noted(cfg, returned, s, step))
  {
    HandlerWritesLittle(cfg, s, step);
    if Fails(cfg, s, step) {
      FailureIsRecorded(cfg, s, step);
    }
  }

  lemma RecordsStayOk(s: System, s': System, returned: map<nat, Cause>, returned': map<nat, Cause>)
    requires CausesOk(s, returned) && Grows(s, s', returned, returned') && s'.store.dead == s.store.dead
    requires forall b | b in s'.hist.due :: b in s.hist.due || (b.Sealed? && b.job.attempts == 0)
    ensures (forall n | n in returned' :: n < s'.nextNonce) && (forall b | b in s'.hist.due :: Transient(returned', b))
    ensures forall b | b in s'.store.dead :: Old(s', b) && Deserved(returned', b)
  {
    forall b | b in s'.hist.due ensures Transient(returned', b) {
      assert b in s.hist.due ==> Transient(returned, b);
    }
    forall b | b in s'.store.dead ensures Old(s', b) && Deserved(returned', b) {
      assert Old(s, b) && Deserved(returned, b);
    }
  }

  lemma HandleKeepsCauses(cfg: Config, s: System, step: Step, returned: map<nat, Cause>)
    requires Inv(cfg, s) && CausesOk(s, returned) && step.Handle?
    ensures CausesOk(Next(cfg, s, step), Noted(cfg, returned, s, step))
  {
    var s', returned' := Next(cfg, s, step), Noted(cfg, returned, s, step);
    HandlerWritesLittle(cfg, s, step);
    NotesGrow(cfg, s, step, returned);
    RecordsStayOk(s, s', returned, returned');
    forall t | t in s'.threads ensures PipeOk(s', returned', s'.threads[t].pipe) {
      if t == step.t {
        StartedIsOk(cfg, s, step, returned);
      } else {
        assert PipeOk(s, returned, s.threads[t].pipe);
        StillOk(s, s', returned, returned', s.threads[t].pipe);
      }
    }
  }

  lemma BudgetIsPositive(cfg: Config, s: System, th: Thread)
    requires Inv(cfg, s) && th.todo != [] && th.todo[0].job.jobType != ""
    requires GoodThread(cfg, s, th)
    ensures InBudget(th.todo[0].job) && th.todo[0].job.maxAttempts == cfg.maxAttempts
  {
    assert GoodDelivery(s, th.todo[0]);
    assert GoodRecord(cfg, s, s.store.log[th.todo[0].id]);
  }

  lemma StillOk(s: System, s': System, returned: map<nat, Cause>, returned': map<nat, Cause>, pipe: seq<Command>)
    requires PipeOk(s, returned, pipe) && Grows(s, s', returned, returned')
    ensures PipeOk(s', returned', pipe)
  {
    forall i | 0 <= i < |pipe| ensures CommandOk(s', returned', pipe[i]) {
      assert CommandOk(s, returned, pipe[i]);
    }
  }

  lemma StartedIsOk(cfg: Config, s: System, step: Step, returned: map<nat, Cause>)
    requires Inv(cfg, s) && CausesOk(s, returned) && step.Handle? && step.t in Next(cfg, s, step).threads
    ensures PipeOk(Next(cfg, s, step), Noted(cfg, returned, s, step), Next(cfg, s, step).threads[step.t].pipe)
  {
    if Fails(cfg, s, step) {
      assert step.t in s.threads && GoodThread(cfg, s, s.threads[step.t]);
      BudgetIsPositive(cfg, s, ThreadAt(s, step.t));
      FailedIsOk(cfg, s, step, returned);
    } else {
      NotFailedIsOk(cfg, s, step, returned);
    }
  }

  lemma FailedIsOk(cfg: Config, s: System, step: Step, returned: map<nat, Cause>)
    requires Fails(cfg, s, step) && ThreadAt(s, step.t).todo[0].job.maxAttempts > 0 && step.t in Next(cfg, s, step).threads
    ensures PipeOk(Next(cfg, s, step), Noted(cfg, returned, s, step), Next(cfg, s, step).threads[step.t].pipe)
  {
    FailureIsRecorded(cfg, s, step);
  }

  lemma NotFailedIsOk(cfg: Config, s: System, step: Step, returned: map<nat, Cause>)
    requires CausesOk(s, returned) && step.Handle? && !Fails(cfg, s, step) && step.t in Next(cfg, s, step).threads
    ensures PipeOk(Next(cfg, s, step), returned, Next(cfg, s, step).threads[step.t].pipe)
  {
    var s' := Next(cfg, s, step);
    HandlerWritesLittle(cfg, s, step);
    OthersStartLittle(cfg, s, step);
    LittleIsOk(s, s', returned, s'.threads[step.t].pipe);
  }

  lemma LittleIsOk(s: System, s': System, returned: map<nat, Cause>, pipe: seq<Command>)
    requires CausesOk(s, returned) && s.nextNonce <= s'.nextNonce
    requires || Familiar(s, pipe)
             || (|pipe| == 3 && pipe[0].XAddDead? && pipe[0].blob.Sealed? && pipe[0].blob.nonce == s'.nextNonce - 1 >= s.nextNonce
                 && pipe[1].XAck? && pipe[2].XDel?)
    ensures PipeOk(s', returned, pipe)
  {
    if u :| u in s.threads && pipe == s.threads[u].pipe {
      assert PipeOk(s, returned, pipe);
      StillOk(s, s', returned, returned, pipe);
    }
  }

  // ---- Every run ----

  lemma StepKeepsCauses(cfg: Config, s: System, step: Step, returned: map<nat, Cause>)
    requires Inv(cfg, s) && CausesOk(s, returned)
    ensures CausesOk(Next(cfg, s, step), Noted(cfg, returned, s, step))
  {
    if step.Handle? {
      HandleKeepsCauses(cfg, s, step, returned);
    } else if step.Exec? {
      ExecKeepsCauses(s, step.t, returned);
    } else {
      QuietKeeps(cfg, s, step, returned);
    }
  }

  lemma {:induction false} RunKeepsCauses(cfg: Config, steps: seq<Step>)
    requires ValidConfig(cfg)
    ensures CausesOk(Run(cfg, INITIAL, steps), Returned(cfg, steps))
  {
    if steps != [] {
      var before := steps[..|steps| - 1];
      RunKeepsCauses(cfg, before);
      RunKeeps(cfg, before);
      StepKeepsCauses(cfg, Run(cfg, INITIAL, before), steps[|steps| - 1], Returned(cfg, before));
    }
  }

  /**
   In every run, whatever is scheduled for another attempt, waits for it or has been put back into the
   stream for it, is there because a handler returned an error, and never a permanent one.
   */
  lemma PermanentIsNeverRetried(cfg: Config, steps: seq<Step>, b: Blob)
    requires ValidConfig(cfg) && b.Sealed? && b.job.attempts > 0
    requires var s := Run(cfg, INITIAL, steps); b in s.hist.due || b in s.store.retry || b in s.store.log
    ensures var returned := Returned(cfg, steps);
            b.nonce in returned && !returned[b.nonce].permanent && IsNote(b.job.lastError, returned[b.nonce].text)
  {
    RunKeepsCauses(cfg, steps);
    RunKeeps(cfg, steps);
    JobLineage.RunKeepsTrace(cfg, steps);
    var s := Run(cfg, INITIAL, steps);
    if b in s.store.log {
      var i :| 0 <= i < |s.store.log| && s.store.log[i] == b;
      assert i in s.hist.released;
    }
    assert b in s.hist.due;
    assert Transient(Returned(cfg, steps), b);
  }

  /** In every run, a dead letter of a job whose handler returned an error has a permanent one or is out of attempts. */
  lemma DeadLetterIsDeserved(cfg: Config, steps: seq<Step>, b: Blob)
    requires ValidConfig(cfg) && b.Sealed? && b in Run(cfg, INITIAL, steps).store.dead && b.nonce in Returned(cfg, steps)
    ensures var cause := Returned(cfg, steps)[b.nonce];
            (cause.permanent || b.job.attempts >= b.job.maxAttempts) && IsNote(b.job.lastError, cause.text)
  {
    RunKeepsCauses(cfg, steps);
    assert Deserved(Returned(cfg, steps), b);
  }

  /**
   In every run, an error that a handler returns for a delivery sends it to the dead letters if and only
   if the error is permanent or this was the last attempt of the budget; otherwise it is tried again.
   */
  lemma FailureIsDeadLetteredIff(cfg: Config, steps: seq<Step>, step: Step)
    requires ValidConfig(cfg) && Fails(cfg, Run(cfg, INITIAL, steps), step)
    ensures var s := Run(cfg, INITIAL, steps);
            var d, cause, pipe := ThreadAt(s, step.t).todo[0], step.outcome.cause, ThreadAt(Next(cfg, s, step), step.t).pipe;
            && |pipe| == 3
            && (pipe[0].XAddDead? <==> cause.permanent || d.job.attempts + 1 >= cfg.maxAttempts)
            && (pipe[0].ZAdd? <==> !cause.permanent && d.job.attempts + 1 < cfg.maxAttempts)
  {
    RunKeeps(cfg, steps);
    var s := Run(cfg, INITIAL, steps);
    FailureIsRecorded(cfg, s, step);
    assert step.t in s.threads && GoodThread(cfg, s, s.threads[step.t]);
    BudgetIsPositive(cfg, s, ThreadAt(s, step.t));
  }

  /** A delivery whose handler succeeds is acknowledged and taken off the stream. */
  lemma SuccessIsAcknowledged(cfg: Config, s: System, step: Step)
    requires step.Handle? && step.outcome.Success? && ThreadAt(s, step.t).todo != [] && ThreadAt(s, step.t).pipe == []
    requires ThreadAt(s, step.t).todo[0].job.jobType != "" && ThreadAt(s, step.t).todo[0].job.jobType in cfg.handlers
    ensures var d := ThreadAt(s, step.t).todo[0];
            ThreadAt(Next(cfg, s, step), step.t).pipe == [XAck(d.id), XDel(d.id)]
  {
  }

  /** What an enqueued job is: the type and the payload as given, no attempt made yet, and the configured budget. */
  lemma EnqueueExactly(cfg: Config, s: System, jobType: string, payload: string, due: int)
    requires jobType != ""
    ensures var record := Sealed(s.nextNonce, Job(s.nextJob, jobType, payload, 0, cfg.maxAttempts, ""));
            && Next(cfg, s, Enqueue(jobType, payload, false, due)).store == s.store.(log := s.store.log + [record])
            && Next(cfg, s, Enqueue(jobType, payload, true, due)).store == s.store.(retry := s.store.retry[record := due])
  {
  }

  /** A periodic job that succeeds is scheduled again with the same type and payload, before it is acknowledged. */
  lemma RescheduleExactly(cfg: Config, s: System, step: Step)
    requires step.Handle? && step.outcome.Success? && ThreadAt(s, step.t).todo != [] && ThreadAt(s, step.t).pipe == []
    requires var job := ThreadAt(s, step.t).todo[0].job; job.jobType != "" && job.jobType in cfg.handlers && job.jobType in cfg.periodic
    ensures var job := ThreadAt(s, step.t).todo[0].job;
            var record := Sealed(s.nextNonce, Job(s.nextJob, job.jobType, job.payload, 0, cfg.maxAttempts, ""));
            Next(cfg, s, step).store == s.store.(retry := s.store.retry[record := step.nextDue])
  {
  }
}
