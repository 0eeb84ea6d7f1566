/**
 Job records, their sealed form, and what one delivery turns into: the pipelines
 that `Ack`, `Fail` and `PromoteDue` send to Redis.
 */
module JobRecords {
  import opened Prelude

  const MAX_ERROR_LENGTH: nat := 500

  /** Position of an entry in the job stream; entries are numbered in the order they are added. */
  type EntryId = nat

  /** A job identifier. Zero stands for the empty identifier of an undecodable record. */
  type JobId = nat

  datatype Job = Job(
    id: JobId,
    jobType: string,
    payload: string,
    attempts: int,
    maxAttempts: int,
    lastError: string)

  /**
   The value of a stream entry. A sealed record carries the nonce it was sealed with, so two seals
   of one job differ. `Unreadable` is a value that fails authentication, and `NoField` an entry
   without the payload field.
   */
  datatype Blob = Sealed(nonce: nat, job: Job) | Unreadable(raw: nat) | NoField

  datatype Delivery = Delivery(id: EntryId, job: Job)

  /** The error a handler returned, and whether it was wrapped by `Permanent`. */
  datatype Cause = Cause(text: string, permanent: bool)

  /** The Redis commands the queue's pipelines are made of. */
  datatype Command =
    | XAddStream(blob: Blob)
    | XAddDead(blob: Blob)
    | ZAdd(blob: Blob, due: int)
    | ZRem(blob: Blob)
    | XAck(id: EntryId)
    | XDel(id: EntryId)

  /** The record `Read` hands out for an entry it cannot decode: everything but the error is empty. */
  function Undecoded(error: string): Job {
    Job(0, "", "", 0, 0, error)
  }

  function Open(blob: Blob): (job: Job) {
    match blob
    case Sealed(_, job) => job
    case _ => Undecoded("jobs: payload failed authentication")
  }

  /** A record still inside its attempt budget. */
  predicate InBudget(job: Job) {
    0 <= job.attempts < job.maxAttempts
  }

  function Truncate(s: string, n: nat): (r: string)
    ensures |r| <= n && r <= s
    ensures |s| <= n ==> r == s
  {
    if |s| <= n then s else s[..n]
  }

  /** The record `Fail` writes after a failed attempt. */
  function AfterFailure(job: Job, cause: Cause): Job {
    job.(attempts := job.attempts + 1, lastError := Truncate(cause.text, MAX_ERROR_LENGTH))
  }

  /** `Fail`'s choice between the dead-letter stream and another attempt, on the updated record. */
  predicate DeadLetters(updated: Job, cause: Cause) {
    cause.permanent || updated.maxAttempts <= 0 || updated.attempts >= updated.maxAttempts
  }

  /** The outcome label the worker reports before it calls `Fail`, on the record as delivered. */
  function FailureLabel(job: Job, cause: Cause): string {
    if cause.permanent || job.attempts + 1 >= job.maxAttempts then "dead_lettered" else "failed"
  }

  /** The outcome the worker reports for a delivery it fails: jobs without a handler get a label of their own. */
  function ReportedLabel(handlers: set<string>, job: Job, cause: Cause): string {
    if job.jobType == "" then "dead_lettered"
    else if job.jobType !in handlers then "unhandled"
    else FailureLabel(job, cause)
  }

  /** What `Worker.handle` does with a delivery: acknowledge it, or fail it with a cause. */
  datatype Verdict = Complete | Reject(cause: Cause)

  predicate Handled(handlers: set<string>, job: Job) {
    job.jobType != "" && job.jobType in handlers
  }

  /** `failure` is the error the handler returned, if it ran and returned one. */
  function Dispatch(handlers: set<string>, job: Job, failure: Option<Cause>): Verdict {
    if job.jobType == "" then Reject(Cause("job payload is unreadable", true))
    else if job.jobType !in handlers then Reject(Cause("no handler for job type", true))
    else if failure.Some? then Reject(failure.value)
    else Complete
  }

  function AckPipeline(id: EntryId): seq<Command> {
    [XAck(id), XDel(id)]
  }

  function FailPipeline(delivery: Delivery, cause: Cause, nonce: nat, due: int): seq<Command> {
    var updated := AfterFailure(delivery.job, cause);
    var record := Sealed(nonce, updated);
    [if DeadLetters(updated, cause) then XAddDead(record) else ZAdd(record, due),
     XAck(delivery.id), XDel(delivery.id)]
  }

  function PromotePipeline(due: seq<Blob>): (pipe: seq<Command>)
    ensures |pipe| == 2 * |due|
  {
    if due == [] then [] else [XAddStream(due[0]), ZRem(due[0])] + PromotePipeline(due[1..])
  }

  lemma {:induction false} PromotePipelineSnoc(due: seq<Blob>, blob: Blob)
    ensures PromotePipeline(due + [blob]) == PromotePipeline(due) + [XAddStream(blob), ZRem(blob)]
  {
    if due == [] {
      assert [blob][1..] == [];
    } else {
      assert (due + [blob])[1..] == due[1..] + [blob];
      PromotePipelineSnoc(due[1..], blob);
    }
  }

  /** The delivery made from one message: an entry without the payload field is skipped. */
  function Decoded(blob: Blob, id: EntryId): seq<Delivery> {
    if blob.NoField? then [] else [Delivery(id, Open(blob))]
  }

  /** The deliveries `Read` and `RecoverStale` build from stream messages. */
  function Deliveries(log: seq<Blob>, ids: seq<EntryId>): seq<Delivery>
    requires forall i | 0 <= i < |ids| :: ids[i] < |log|
  {
    if ids == [] then [] else Deliveries(log, ids[..|ids| - 1]) + Decoded(log[ids[|ids| - 1]], ids[|ids| - 1])
  }

  /** Every delivery is an entry of the batch, decoded. */
  lemma {:induction false} DeliveriesDecode(log: seq<Blob>, ids: seq<EntryId>)
    requires forall i | 0 <= i < |ids| :: ids[i] < |log|
    ensures forall d | d in Deliveries(log, ids) :: d.id in ids && d.id < |log| && d.job == Open(log[d.id])
  {
    if ids != [] {
      DeliveriesDecode(log, ids[..|ids| - 1]);
    }
  }

  lemma {:induction false} EntryIsDelivered(log: seq<Blob>, ids: seq<EntryId>, i: nat)
    requires i < |ids| && (forall j | 0 <= j < |ids| :: ids[j] < |log|)
    ensures log[ids[i]] != NoField ==> Delivery(ids[i], Open(log[ids[i]])) in Deliveries(log, ids)
  {
    if i < |ids| - 1 {
      EntryIsDelivered(log, ids[..|ids| - 1], i);
    }
  }

  lemma {:induction false} DeliveredInOrder(log: seq<Blob>, ids: seq<EntryId>)
    requires forall j | 0 <= j < |ids| :: ids[j] < |log|
    requires forall i, j | 0 <= i < j < |ids| :: ids[i] < ids[j]
    ensures forall k, l | 0 <= k < l < |Deliveries(log, ids)| :: Deliveries(log, ids)[k].id < Deliveries(log, ids)[l].id
  {
    if ids != [] {
      var last := |ids| - 1;
      DeliveredInOrder(log, ids[..last]);
      var before := Deliveries(log, ids[..last]);
      forall k | 0 <= k < |before| ensures before[k].id < ids[last] {
        DeliveriesDecode(log, ids[..last]);
        assert before[k] in before;
      }
    }
  }

  /** Every entry of the batch that has a payload is delivered, once and in stream order. */
  lemma DeliveriesComplete(log: seq<Blob>, ids: seq<EntryId>)
    requires forall i | 0 <= i < |ids| :: ids[i] < |log|
    requires forall i, j | 0 <= i < j < |ids| :: ids[i] < ids[j]
    ensures forall i | 0 <= i < |ids| && log[ids[i]] != NoField :: Delivery(ids[i], Open(log[ids[i]])) in Deliveries(log, ids)
    ensures forall k, l | 0 <= k < l < |Deliveries(log, ids)| :: Deliveries(log, ids)[k].id < Deliveries(log, ids)[l].id
  {
    forall i | 0 <= i < |ids| && log[ids[i]] != NoField ensures Delivery(ids[i], Open(log[ids[i]])) in Deliveries(log, ids) {
      EntryIsDelivered(log, ids, i);
    }
    DeliveredInOrder(log, ids);
  }

  /** What is sealed is opened again; anything else is handed out as an empty record that carries an error. */
  lemma OpenIsInverse(nonce: nat, job: Job, raw: nat)
    ensures Open(Sealed(nonce, job)) == job
    ensures Open(Unreadable(raw)).jobType == "" && Open(Unreadable(raw)).lastError != ""
  {
  }

  /**
   The label coincides with `Fail`'s branch exactly when the record's budget is not already
   negative: with `maxAttempts <= 0` and attempts far enough below it, a transient failure is
   labelled "failed" while `Fail` dead-letters the job.
   */
  lemma LabelAgreesIff(job: Job, cause: Cause)
    ensures (FailureLabel(job, cause) == "dead_lettered" <==> DeadLetters(AfterFailure(job, cause), cause))
       <==> (cause.permanent || job.maxAttempts > 0 || job.attempts + 1 >= job.maxAttempts)
  {
    assert "failed" != "dead_lettered" by { assert |"failed"| != |"dead_lettered"|; }
  }
}
