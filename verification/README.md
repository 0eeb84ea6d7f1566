# TeamFlow: verified protocols

TeamFlow is a multi-tenant backend. Its difficult guarantees sit in a handful of stateful protocols: a job
queue on Redis, a rate limiter, refresh-token families, organization invitations, organization ownership, the
expiry sweep of API keys, paged listings and slugs. This project models those protocols in Dafny and proves what
they promise, for every input, every run and every interleaving the model allows. `dafny verify dfyconfig.toml`
checks all of it.

## How the model is laid out

Each protocol has up to three layers. Specification functions say what one transaction or one Redis command does.
Classes run the source's statements one by one against their fields, and their methods are proved equal to those
functions, and beside that to what they promise in plain terms. State machines interleave the steps of any number of clients, and the laws are proved over all their
runs.

| part | files |
|---|---|
| job queue | `JobRecords`, `RedisStore`, `Backoff`, `JobQueue` (objects), `JobProtocol` (machine), `JobInvariant`, `JobCoverage`, `JobLineage`, `JobCauses` |
| rate limiter | `TokenBucket`, `BucketBounds` (keys kept for good), `BucketReplies`, `BucketExpiry`, `BucketClocks`, `BucketDrift`, `RetryTime`, `Limiter` (object) |
| refresh tokens | `RefreshTokens` (functions and object), `RefreshChains` (row-lock machine), `InterleavedLogout`, `RefreshExpiry`, `DeadFamilies` (serial machine) |
| invitations | `Text`, `Invitations`, `InvitationService` (object), `InvitationRuns` (machine), `InvitationLaws`, `InvitationEnds` |
| ownership | `Organizations` (functions and object), `OwnerRetention` (serial machine), `OwnerRaces` (machine of statements), `OwnerSkew`, `SystemRoleLaws` |
| API keys | `ApiKeys` |
| listings | `TaskOrder`, `Paging` |
| slugs | `Slugs` |

### Assumptions

- Jobs: every process holds the same key, so opening a sealed record gives the record back; every seal uses a fresh
  nonce. Redis runs a prefix of a pipeline, interleaved with anything else: no command is refused while a later one
  of the same pipeline applies. `RefusedCommandIff` shows exactly what is lost otherwise. The consumer group starts
  at the beginning of the stream. The dead-letter stream is kept as a full history, because trimming to a maximum
  length drops old letters.
- Backoff: base delays up to 2^53 ns, which a float64 holds exactly, and 1.5 times the largest delay within int64.
- Rate limiter: token counts are exact reals, so floating-point rounding is idealised. Every call reads two clocks,
  the caller's for the refill and the one of Redis for the expiry of the key. What is promised is stated for clocks
  that agree, running in any direction, and for clocks that drift apart (`BucketDrift`, `RetryUnderDrift`).
- Tokens: hashing is injective and tokens are fresh, so an identifier stands for a raw token and for its hash.
- Transactions: refreshes and logouts are interleaved at row-lock level. Neither the family-wide `UPDATE` nor
  `CountActiveOwners` locks the rows it depends on, so the plain promises, `NoRefreshAfterLogout` and
  `OwnerRetained`, are proved for serialised transactions. `LogoutHoldsIff` and `OwnerLostIff` are the exact
  conditions when statements of different transactions interleave.
- Text: lower case is any table that treats ASCII as usual, is idempotent and makes no space out of a letter.

### Where the code falls short of a promise

- The Retry-After header truncates to whole seconds, so a client that waits as told can be denied again
  (`RetryAfterSufficesIff`, `RetryAfterTooShort`).
- A rate-limit period under half a millisecond gives a key lifetime of zero, and then nothing is limited
  (`AdmissionBoundIff`, `ExpiryInvisibleIff`, `BurstReveals`).
- The sweep's `RevokeAPIKeyByID` does not test for an earlier revocation, so it can overwrite the time of one
  (`StampKeptIff`, `StampIsOverwritten`); it never undoes a revocation.
- Role assignments that overtake each other can leave an organization without an Owner (`OwnerLostIff`,
  `UndisturbedKeepsOwner`, `SkewIsReachable`, `OvertakenRace`), and a logout that waits for a refresh can leave the
  rotated token alive (`LogoutHoldsIff`, `LogoutRace`).
- A key that Redis expires while the caller's clock lags too far behind gives its caller a full bucket early
  (`DriftBoundIff`, `TwoClockBound`, `StandingClockBreaksBound`).
- Sweeps of one organization that overlap revoke the same batch of keys (`BacklogDrains`, `OverlapTakesNothing`);
  every worker start queues another copy of the sweep.
- The page count wraps around when the row count is within a page of 2^63 (`TotalPagesIsLeastIff`).

## Model

| member | source | states |
|---|---|---|
| `JobCoverage.NoJobLost` | internal/jobs/jobs.go:215-400 | in every interleaved run, with pipelines cut off after any command and threads crashing anywhere, every enqueued job is deliverable, waits for a retry, was dead-lettered, or was acknowledged after its handler succeeded |
| `JobCoverage.ScheduleNeverVanishes` | cmd/worker/main.go:197-226 | once a periodic type was enqueued, every later state has a copy of it deliverable, scheduled or dead-lettered |
| `JobCoverage.RunKeepsCoverage` | internal/jobs/worker.go:160-279 | the invariant behind both: a copy that stands for a job or a schedule disappears only after its successor was written |
| `JobInvariant.RunKeeps` | internal/jobs/worker.go:226-279 | every reachable state keeps budgets, fresh nonces, well-formed pipelines and the store's shape |
| `JobInvariant.PipelineIsCareful` | internal/jobs/jobs.go:332-372 | no pipeline of any thread acknowledges or deletes an entry whose job still needs it |
| `JobLineage.RetryBudget` | internal/jobs/jobs.go:346-372 | a record's attempt counter is the number of failures in its lineage, below the budget while it is queued and at most the budget in a dead letter |
| `JobLineage.AttemptsCountFailures` | internal/jobs/jobs.go:346-352 | following each record to the delivery it was written for counts exactly its attempts |
| `JobLineage.NoEarlyRetry` | internal/jobs/jobs.go:362-400 | in every run a retried entry entered the stream no earlier, to the millisecond, than its last failure plus the nominal backoff |
| `JobLineage.RetryIsDueInTime` | internal/jobs/jobs.go:362-367 | in every run a scheduled retry is due between one and one and a half nominal delays after the failure, to the millisecond |
| `JobLineage.LabelsAreTrue` | internal/jobs/worker.go:228-269 | in every run, for every delivery a worker fails, readable or not and with or without a handler, the report is "failed" exactly when another attempt is scheduled; otherwise the job is dead-lettered and the report says "dead_lettered", or "unhandled" for a type without a handler |
| `JobCauses.PermanentIsNeverRetried` | internal/jobs/worker.go:258-269 | in every run, whatever is scheduled for another attempt, waits for one or was put back into the stream for one is there because a handler returned an error that was not permanent, and keeps its text |
| `JobCauses.DeadLetterIsDeserved` | internal/jobs/jobs.go:354-360 | in every run, a dead letter of a job whose handler returned an error has a permanent one or no attempt left |
| `JobCauses.FailureIsDeadLetteredIff` | internal/jobs/jobs.go:354-367 | in every run, an error returned by a handler dead-letters the delivery if and only if it is permanent or the attempts plus one reach the budget; otherwise the delivery is scheduled again |
| `JobCauses.FailureIsRecorded` | internal/jobs/jobs.go:346-372 | in any state, the record of a failure is the job with one more attempt and the error's first 500 characters, and is written before the delivery is acknowledged and deleted |
| `JobCauses.ErrorIsRecordedIff` | internal/jobs/jobs.go:432-450 | no returned error goes unrecorded: a worker goes on with every jitter below half the nominal delay, and with none |
| `JobCauses.SuccessIsAcknowledged` | internal/jobs/worker.go:258-279 | a delivery whose handler succeeds is acknowledged and deleted, nothing else |
| `JobCauses.EnqueueExactly` | internal/jobs/jobs.go:201-248 | an enqueued job has its type and payload, no attempt yet and the configured budget, in the stream or in the retry set |
| `JobCauses.RescheduleExactly` | cmd/worker/main.go:210-218 | a periodic job that succeeds is scheduled again with the same type and payload before it is acknowledged |
| `JobCauses.RunKeepsCauses` | internal/jobs/worker.go:226-279 | the invariant behind these laws, over every run and tied to the errors the handlers returned in it |
| `JobRecords.LabelAgreesIff` | internal/jobs/worker.go:262-266 | for arbitrary records, label and branch agree if and only if the budget is not already spent below zero |
| `JobRecords.DeliveriesDecode` | internal/jobs/jobs.go:281-297 | every delivery is an entry of the batch, decoded |
| `JobRecords.DeliveriesComplete` | internal/jobs/jobs.go:281-297 | every entry of a batch that has a payload is delivered, once and in stream order |
| `JobRecords.OpenIsInverse` | internal/jobs/jobs.go:167-198 | a sealed record opens to itself; an unreadable one to an empty record that carries an error |
| `JobRecords.Truncate` | internal/jobs/jobs.go:471-476 | a prefix of at most the given length, the whole text when it fits |
| `RedisStore.Select` | internal/jobs/jobs.go:302-310 | the first matching undeleted entries in stream order, none skipped |
| `RedisStore.NextBatch` | internal/jobs/jobs.go:269-280 | the next undelivered entries, in order, none skipped |
| `RedisStore.CommandKeepsLive` | internal/jobs/jobs.go:332-343 | a command keeps the store's shape, and only an acknowledgement ends the life of an entry |
| `RedisStore.DeliverKeepsLive` | internal/jobs/jobs.go:269-297 | delivery neither adds nor removes a live entry |
| `JobQueue.Queue.constructor` | internal/jobs/jobs.go:126-148 | attempts at least one and a positive base delay no larger than the maximum, given values kept when valid |
| `JobQueue.Queue.Seal` | internal/jobs/jobs.go:167-198 | a fresh seal that opens to the same record |
| `JobQueue.Queue.Send` | internal/jobs/jobs.go:332-343 | the store after a pipeline is the result of the prefix Redis reached; success means all of it and a reply |
| `JobQueue.Queue.Enqueue` | internal/jobs/jobs.go:201-248 | one fresh record in the stream or, delayed, in the retry set at its due millisecond; an empty type changes nothing |
| `JobQueue.Queue.Decode` | internal/jobs/jobs.go:281-297 | the deliveries of the listed entries, undecodable ones with an empty record, entries without a payload skipped |
| `JobQueue.Queue.Read` | internal/jobs/jobs.go:269-297 | exactly the next batch becomes pending for the consumer, and no entry is lost by reading |
| `JobQueue.Queue.RecoverStale` | internal/jobs/jobs.go:302-329 | idle pending entries change owner and are handed out again, every one of them unless the batch is full; no entry is lost |
| `JobQueue.Queue.Ack` | internal/jobs/jobs.go:332-343 | a prefix of the acknowledge pipeline; after all of it the entry is gone and nothing else has changed |
| `JobQueue.Queue.Fail` | internal/jobs/jobs.go:346-372 | a prefix of the pipeline that writes the failure record before it acknowledges: a dead letter exactly for a permanent cause or a spent budget, else a retry at its due millisecond |
| `JobQueue.Queue.Promotion` | internal/jobs/jobs.go:388-393 | the pipeline adds each due record to the stream before it leaves the retry set |
| `JobQueue.Queue.PromoteDue` | internal/jobs/jobs.go:376-400 | a prefix of that pipeline for the due listing, and the count promoted; after all of it the listed records are at the end of the stream and out of the retry set |
| `JobQueue.PromotionMoves` | internal/jobs/jobs.go:376-400 | promotion as a whole appends the listed records to the stream in order, takes them out of the retry set and touches nothing else |
| `JobQueue.Worker.Handle` | internal/jobs/worker.go:226-279 | a handled success is acknowledged; a returned error is stored as a dead letter and reported "dead_lettered" exactly when it is permanent or the budget is spent, else stored for a retry and reported "failed"; unreadable and unknown jobs become dead letters; no other entry changes |
| `JobQueue.RefusedCommandIff` | internal/jobs/jobs.go:354-372 | if single commands of `Fail` could be refused, the job survives exactly when its record was written or its entry left alone |
| `Backoff.DelayIsNominal` | internal/jobs/jobs.go:432-442 | the computed delay is the nominal one, which starts at the base, doubles with every attempt up to the 33rd and is capped, also when the float-to-int conversion is out of range |
| `Backoff.NominalIsCapped` | internal/jobs/jobs.go:432-442 | doubling and capping attempt by attempt is min(base times 2^min(attempt-1,32), max) |
| `Backoff.BackoffBound` | internal/jobs/jobs.go:432-450 | with jitter the delay lies between d and d + d/2 and fits int64 |
| `Backoff.NominalMonotone` | internal/jobs/jobs.go:432-442 | d never falls as attempts rise |
| `BucketExpiry.AdmissionBoundIff` | internal/ratelimit/ratelimit.go:91-122 | for every call sequence on an expiring bucket, even with a clock running backwards, admissions are at most the capacity plus the refill over the time that passed forwards, if and only if the period is at least half a millisecond |
| `BucketExpiry.WindowBoundIff` | internal/ratelimit/ratelimit.go:91-122 | with a nondecreasing clock the bound holds over every window of every run, under the same exact condition |
| `BucketDrift.DriftBoundIff` | internal/ratelimit/ratelimit.go:49-122 | on two clocks, the plain bound holds on every run in which Redis time gains at most d ms on the caller's between calls if and only if the period is at least half a millisecond and d is at most what the key's lifetime exceeds the period by |
| `BucketDrift.DriftInvisibleIff` | internal/ratelimit/ratelimit.go:49-122 | under exactly the same condition no caller can tell that keys expire |
| `BucketDrift.DriftWindowIff` | internal/ratelimit/ratelimit.go:49-122 | under exactly the same condition the bound holds over every window of every run with a nondecreasing caller's clock |
| `BucketDrift.TwoBurstsAreServed` | internal/ratelimit/ratelimit.go:97-119 | beyond it, twice the limit is admitted within one period of the caller |
| `BucketClocks.TwoClockBound` | internal/ratelimit/ratelimit.go:118-157 | when the two clocks disagree in any way, admissions are at most one bucket, one more for each time the key was lost before a full period of caller time, and the refill |
| `BucketClocks.SpendingBound` | internal/ratelimit/ratelimit.go:97-119 | the same from any stored bucket: its balance, one bucket per early loss, and the refill |
| `BucketClocks.AgreedLosesNothing` | internal/ratelimit/ratelimit.go:49-56 | clocks that agree never lose a key too early, from half a millisecond on |
| `BucketClocks.LossAdmitsAgain` | internal/ratelimit/ratelimit.go:97-102 | for every policy, a key lost while the caller's clock stands still gives a full bucket again |
| `BucketClocks.StandingClockBreaksBound` | internal/ratelimit/ratelimit.go:118-157 | a policy and two calls that the bound without early losses does not cover |
| `BucketBounds.BurstAdmits` | internal/ratelimit/ratelimit.go:105-116 | the bound is tight: a bucket of n tokens admits n calls in one instant and is then empty |
| `BucketReplies.RemainingIsExact` | internal/ratelimit/ratelimit.go:103-121 | for every valid policy and bucket, admitted or denied, the reported remaining is exactly the number of further calls admitted at the same instant |
| `BucketReplies.ServedRemainingIsExact` | internal/ratelimit/ratelimit.go:91-122 | the same for the expiring key on two clocks; below half a millisecond every further call is admitted |
| `BucketReplies.InstantCounts` | internal/ratelimit/ratelimit.go:105-116 | any bucket admits in one instant as many calls as it has whole tokens, and no more |
| `BucketReplies.FirstCall` | internal/ratelimit/ratelimit.go:97-121 | the first call of all is admitted and leaves one less than the limit |
| `BucketReplies.RefillIsProportional` | internal/ratelimit/ratelimit.go:42-47 | tokens come back at the rate of the limit per period |
| `BucketReplies.StepBackBringsNothing` | internal/ratelimit/ratelimit.go:103-107 | a clock that stands still or steps back brings no tokens |
| `BucketReplies.ElapsedAdds` | internal/ratelimit/ratelimit.go:103-107 | the time in the admission bound counts how far each reading is ahead of the one before, and nothing for a step back |
| `BucketExpiry.ExpiryInvisibleIff` | internal/ratelimit/ratelimit.go:49-56 | an expiring bucket replies like one that never expires, on every call sequence, if and only if the period is at least half a millisecond |
| `BucketExpiry.SameReplies` | internal/ratelimit/ratelimit.go:97-119 | from any bucket, the replies and the bucket left behind are the same with and without expiry |
| `BucketExpiry.ExpiredIsFull` | internal/ratelimit/ratelimit.go:97-107 | a bucket old enough to expire has refilled completely |
| `BucketExpiry.BurstReveals` | internal/ratelimit/ratelimit.go:118-119 | below that period one burst tells the two apart and exceeds the bound |
| `RetryTime.RetryTimeExact` | internal/ratelimit/ratelimit.go:97-121 | after a denial at t by an expiring bucket a later call is admitted if and only if it comes at t + retry_ms or later, whatever denied calls come between |
| `RetryTime.RetryUnderDrift` | internal/ratelimit/ratelimit.go:97-121 | the same on two clocks, as long as Redis time gains no more on the caller's between calls than keys outlive the period |
| `RetryTime.DenialsAreHarmless` | internal/ratelimit/ratelimit.go:103-121 | denied calls in between neither succeed early nor move that moment |
| `RetryTime.RetryIsExact` | internal/ratelimit/ratelimit.go:112-116 | retry_ms is the least whole millisecond with a token available |
| `RetryTime.RetryAfterBound` | internal/ratelimit/middleware.go:125-129 | the header h satisfies h >= 1 and retry_ms < 1000(h+1) |
| `RetryTime.RetryAfterSufficesIff` | internal/ratelimit/middleware.go:125-129 | waiting exactly h seconds suffices if and only if the wait was under a second or a whole number of seconds |
| `RetryTime.RetryAfterTooShort` | internal/ratelimit/middleware.go:125-129 | a policy and a denial for which it does not |
| `Limiter.RedisLimiter.Script` | internal/ratelimit/ratelimit.go:91-122 | the script's statements compute the bucket step, and a call is allowed exactly when no wait is reported; what its numbers mean is stated by `RemainingIsExact` and `RetryIsExact` |
| `Limiter.RedisLimiter.Allow` | internal/ratelimit/ratelimit.go:150-178 | an invalid policy is an error and changes nothing; otherwise the decision and the new bucket are those of the script, and no other bucket changes |
| `RefreshChains.FamiliesArePaths` | internal/auth/service.go:217-300 | in every row-lock interleaving a family has one user, at most one live token, and its replaced_by links form one path in issue order with any live token last |
| `RefreshChains.AtMostOneSuccess` | internal/auth/service.go:217-300 | among all refreshes presenting one token at most one ever succeeds |
| `RefreshChains.RunKeeps` | internal/db/refresh_tokens.sql.go:88-148 | the invariant over every interleaved run |
| `RefreshChains.BackToBack` | internal/auth/service.go:217-300 | an uninterrupted transaction is the whole-transaction function |
| `DeadFamilies.NoRefreshAfterLogout` | internal/auth/service.go:233-329 | after a committed logout, logout-all or reuse detection no later refresh with any token of the family succeeds |
| `DeadFamilies.DeadForever` | internal/auth/service.go:353-401 | no operation revives a dead family |
| `DeadFamilies.EndingKills` | internal/db/refresh_tokens.sql.go:112-148 | each of the three ending operations revokes every token of the family |
| `InterleavedLogout.LogoutHoldsIff` | internal/auth/service.go:233-329 | after an interleaved logout, logout-all or reuse detection no refresh of the family ever succeeds again if and only if the family was not renewed while it waited: no refresh of it succeeded, or another ending of it begun after the last one that did has finished |
| `InterleavedLogout.WaitingLogout` | internal/db/refresh_tokens.sql.go:112-148 | at every moment of the wait the live token escapes the picked rows exactly when the family was renewed |
| `InterleavedLogout.RenewedIffRotated` | internal/auth/service.go:256-300 | without a successful refresh there is no renewal; with one there is, unless such another ending finishes meanwhile |
| `InterleavedLogout.OverIffDead` | internal/auth/service.go:217-300 | in every reachable state refreshes of a family are over for good exactly when all its tokens are revoked |
| `InterleavedLogout.DeadStaysDead` | internal/auth/service.go:217-300 | no interleaving revives a dead family |
| `InterleavedLogout.LogoutRace` | internal/db/refresh_tokens.sql.go:139-143 | from every state with a live token, a refresh that overtakes a waiting logout leaves a live token |
| `InterleavedLogout.SecondLogoutKills` | internal/db/refresh_tokens.sql.go:139-143 | if a second logout starts after that refresh and finishes first, the family is dead all the same |
| `RefreshExpiry.RotatesIff` | internal/auth/service.go:217-300 | in every interleaving a finishing step rotates a token if and only if it is stored, unrevoked, not past its expiry and its user is active |
| `RefreshExpiry.NoLateRefresh` | internal/auth/service.go:256-266 | in every run no refresh succeeds after the expiry of its token or for a user who is not active |
| `RefreshExpiry.LapsedForever` | internal/auth/service.go:256-280 | when the live token of a family expired before t and refreshes finish at t or later from then on, none of them ever succeeds for it, whatever else interleaves |
| `RefreshExpiry.RotationRenews` | internal/auth/service.go:268-280 | the new token is a fresh one of the same user and family and expires at now + ttl; the old one is revoked |
| `RefreshTokens.Sessions.CreateRefreshToken` | internal/auth/service.go:377-401 | one live row under an identifier that was not stored before, and nothing else |
| `RefreshTokens.Sessions.IssueSession` | internal/auth/service.go:348-373 | a session starts a family of its own |
| `RefreshTokens.Sessions.RevokeRefreshTokenFamily` | internal/db/refresh_tokens.sql.go:139-148 | exactly the live rows of the family are revoked |
| `RefreshTokens.Sessions.Refresh` | internal/auth/service.go:217-300 | a token is rotated if and only if it is stored, unrevoked, presented no later than its expiry and its user is active, into a fresh row that expires at now + ttl; a revoked one ends its family; every other is refused and nothing changes |
| `RefreshTokens.Sessions.Logout` | internal/auth/service.go:304-317 | an unknown token changes nothing, a known one ends its family |
| `RefreshTokens.Sessions.LogoutAll` | internal/auth/service.go:320-329 | exactly the live rows of the user are revoked |
| `InvitationLaws.EndStatesAbsorb` | internal/db/invitations.sql.go:431-489 | accepted, revoked and expired rows never change status, accepter or token again, in every run |
| `InvitationLaws.AcceptedIffJoined` | internal/invitations/service.go:429-483 | a stored invitation is accepted if and only if a membership came from it: one, in its organization, with its role, of the accepted_by account with its normalised address |
| `InvitationLaws.MembershipSources` | internal/invitations/service.go:456-483 | every membership is a founder's or came from one acceptance, and no two share an invitation |
| `InvitationLaws.SupersededNeverOpens` | internal/db/invitations.sql.go:520-568 | once a token was rotated it is answered "not found" in every later state, also by an acceptance that had read it before |
| `InvitationLaws.GoneForever` | internal/invitations/service.go:412-437 | a token that no row holds stays unheld in every continuation |
| `InvitationLaws.ExpiredVerdictIsRight` | internal/invitations/service.go:414-489 | whenever the locked read marks the row expired, the verdict built from the stale unlocked read says expired |
| `InvitationLaws.RunKeeps` | internal/invitations/service.go:388-489 | the invariant over every run of interleaved transactions |
| `InvitationEnds.RevokedForGood` | internal/invitations/service.go:268-297 | in every run, after a pending invitation is revoked no continuation has a membership from it, and every acceptance with its token, also one that read the row before, is told it was revoked, or not found once the row is gone |
| `InvitationEnds.RevokeEnds` | internal/db/invitations.sql.go:483-489 | revoking a pending row stores that end state and changes nothing else |
| `InvitationEnds.EndedStaysEnded` | internal/invitations/service.go:388-489 | in every continuation an ended row keeps its token or is gone with it, and nobody joins through it |
| `InvitationEnds.SweepSparesDelivered` | internal/db/invitations.sql.go:466-471 | once the delivery of an invitation is recorded, no later sweep touches it |
| `InvitationEnds.SweepRotatesListed` | internal/invitations/job.go:107-163 | a sweep gives a row a new token exactly when it is listed, pending and undelivered, and always keeps its expiry |
| `InvitationEnds.OneOpenInvitation` | migrations/000015_create_invitations.up.sql:52-53 | in every run an organization has at most one pending invitation per address |
| `InvitationEnds.AcceptanceIsNarrow` | internal/invitations/service.go:429-483 | an acceptance changes at most the status and accepter of one row, and admits somebody through a pending one only |
| `InvitationService.Service.Create` | internal/invitations/service.go:100-165 | a pending row with a fresh token, or the reason there is none: a member already, an unknown role, the Owner role offered by somebody who is not an Owner, or a pending duplicate |
| `InvitationService.CreateExactly` | internal/invitations/service.go:100-165 | which check answers first, and the row that is stored when none fails: normalised address, pending, fresh token, not yet notified |
| `InvitationService.Service.Resend` | internal/invitations/service.go:212-263 | a pending row gets a fresh token and expiry, everything else is refused unchanged |
| `InvitationService.Service.Revoke` | internal/invitations/service.go:268-297 | the answer is Done if and only if the row is pending in that organization; then it alone changes, to revoked; otherwise nothing does |
| `InvitationService.Service.Redeliver` | internal/invitations/job.go:107-163 | the sweep rotates exactly the listed rows still pending and undelivered, in order, and stops right after the first of them whose email the queue refuses, however earlier ones went |
| `InvitationService.Service.RedeliverRow` | internal/db/invitations.sql.go:520-530 | one row gets a fresh token and keeps its expiry, if it is still pending and undelivered |
| `InvitationService.Service.AcceptRow` | internal/invitations/service.go:429-483 | the locked transaction, with the user it resolves, ends as specified and leaves nothing behind on an error |
| `InvitationService.AcceptExactly` | internal/invitations/service.go:429-483 | somebody joins if and only if the row is pending and in time, its role still exists and the caller is active with that address, or has no account yet; the membership, the row and the account that result |
| `InvitationService.Service.Accept` | internal/invitations/service.go:388-489 | both reads of an uninterrupted acceptance |
| `Text.NormalizeIdempotent` | internal/invitations/model.go:180-182 | for every table of lower-case letters, normalising an address twice is normalising it once |
| `Text.NormalizedIsAddress` | internal/invitations/model.go:180-182 | for every table of lower-case letters, the abstract address of normalised text is the normalised address |
| `Text.NormalizeStrips` | internal/invitations/model.go:180-182 | a normalised address is the address without the spaces around it, in lower case |
| `Text.LowerIsLower` | internal/auth/slug.go:17-26 | ASCII capitals come out in lower case, the rest of ASCII as it was, and the length stays |
| `OwnerRetention.OwnerRetained` | internal/organizations/service.go:480-536 | in every run each organization has an active Owner and exactly one role called Owner, a system role with every permission |
| `OwnerRetention.OwnerRoleImmutable` | internal/organizations/service.go:383-478 | that role keeps its identity, name, flag and permissions in every continuation |
| `SystemRoleLaws.SystemRolesHold` | internal/permissions/permissions.go:44-55 | in every run each organization has exactly five system roles: Owner and Admin with every key, Manager with the six read keys and create and update of projects and tasks, Member and Viewer with the six read keys |
| `SystemRoleLaws.SystemRolesStay` | internal/organizations/service.go:413-478 | all five keep identity, name, flag and permissions in every continuation, and no system role is added |
| `SystemRoleLaws.RacesHaveSystemRoles` | internal/organizations/service.go:209-254 | the same five in every run of interleaved statements |
| `SystemRoleLaws.RacesKeepSystemRoles` | internal/organizations/service.go:413-536 | and they stay as they are in every interleaved continuation |
| `OwnerRetention.OwnerGrantsTrace` | internal/organizations/service.go:509-520 | every Owner owes the role to an unbroken line of Owners, each assigned or invited by the one before, back to the founder |
| `OwnerRetention.LineageIsOwned` | internal/invitations/service.go:130-134 | in a sound history every Owner grant has such a line |
| `OwnerRetention.RunKeeps` | internal/organizations/service.go:209-536 | an organization's invariant, with the same Owner role, over every run |
| `OwnerRetention.EveryOrg` | internal/organizations/service.go:209-254 | founding establishes the invariant for every organization of every run |
| `OwnerRetention.ResolvedExactly` | internal/organizations/service.go:109-159 | what a caller acts with is the organization, the role held there at that moment and the grant behind it |
| `OwnerRetention.GuardIsExact` | internal/organizations/service.go:509-520 | an Owner's change leaves no active Owner if and only if it is refused as LAST_OWNER |
| `OwnerRaces.OwnerLostIff` | internal/organizations/service.go:480-536 | in every run of interleaved statements, with other transactions between the reads, the count and the write of an assignment, an organization is without an Owner at some point if and only if some write takes the role from the member who is then its only active Owner |
| `OwnerRaces.UndisturbedKeepsOwner` | internal/organizations/service.go:480-536 | no run loses the last Owner of an organization in which no other role assignment of it is written between reading a membership for a change and writing it |
| `OwnerRaces.RoleSurvivesRaces` | internal/organizations/service.go:383-536 | in every interleaving, even without an Owner left, the Owner role stays the only one and unchanged, and every Owner descends from the founder through Owners |
| `OwnerRaces.MoveVacatesIff` | internal/db/memberships_extra.sql.go:110-115 | the same condition for a single statement |
| `OwnerRaces.BackToBack` | internal/organizations/service.go:480-536 | the statements with nothing between them are the whole transaction |
| `OwnerSkew.OvertakenRace` | internal/organizations/service.go:509-523 | a run from the start in which an Admin's change of a plain member is read, the member becomes the only Owner, and the change is then written |
| `OwnerSkew.SnapshotSkewIff` | internal/db/memberships.sql.go:15-22 | changes to different members that are all checked on one snapshot leave no Owner if and only if together they demote every active Owner and promote nobody |
| `OwnerSkew.OwnersAfterAll` | internal/db/memberships_extra.sql.go:110-115 | the Owners after such changes are the old ones without the demoted and with the promoted |
| `OwnerSkew.SkewIsReachable` | internal/organizations/service.go:480-536 | a run that reaches two Owners who demote each other at once and leave nobody |
| `OwnerRetention.SerialSecondIsRefused` | internal/organizations/service.go:509-520 | one after the other, the second of them is refused |
| `Organizations.Service.SetPermissions` | internal/organizations/service.go:538-555 | the role's permissions become the given keys, unless one is unknown |
| `Organizations.Service.SeedAll` | internal/organizations/service.go:227-243 | the roles are stored in order with their default permissions, and the one called Owner is remembered |
| `Organizations.Service.CreateOrganization` | internal/organizations/service.go:209-254 | the five system roles, each with its documented permissions, and the founder as an active member in the Owner role |
| `Organizations.FoundingGivesFive` | internal/organizations/service.go:209-254 | founding stores the five roles with the permissions written out, under consecutive identifiers, and one membership |
| `Organizations.Service.CreateRole` | internal/organizations/service.go:383-411 | a new role, or the reason there is none, with everything rolled back |
| `Organizations.CreateRoleExactly` | internal/organizations/service.go:383-411 | blank names, used names and undocumented keys are refused in this order and change nothing; otherwise one custom role with exactly those permissions |
| `Organizations.Service.UpdateRole` | internal/organizations/service.go:413-447 | only a custom role of the organization changes, under a free name and known permissions |
| `Organizations.UpdateRoleExactly` | internal/organizations/service.go:413-447 | roles of others, system roles, blank names, used names and undocumented keys are refused in this order and change nothing; otherwise name and permissions become the given ones |
| `Organizations.Service.DeleteRole` | internal/organizations/service.go:449-478 | only an unused custom role goes, with the invitations that name it |
| `Organizations.Service.AssignMemberRole` | internal/organizations/service.go:480-536 | the member's role changes, or the first check that fails is answered |
| `Organizations.InviteExactly` | internal/invitations/service.go:119-134 | a role of the organization may be offered by anybody, the Owner role by an Owner only |
| `Organizations.JoinExactly` | internal/invitations/service.go:456-483 | who accepts becomes an active member in the offered role, unless the role is gone or a membership exists |
| `ApiKeys.SweepsAreInvisible` | internal/apikeys/job.go:41-95 | in every run, with sweeps interleaved in any way, every key authenticates as in the same run without sweeps, from the latest cutoff on |
| `ApiKeys.SweepShowsIff` | internal/apikeys/model.go:139-148 | one sweep changes an answer if and only if it is about a listed key at a time before its expiry |
| `ApiKeys.RevocationIsFinal` | internal/apikeys/service.go:166-216 | a revoked key stays revoked and is refused at every time, in every run |
| `ApiKeys.AuthenticateIff` | internal/apikeys/service.go:203-250 | a key authenticates if and only if it is stored, unrevoked and not past its expiry and its creator is active; the principal is that creator, with this key, in its organization |
| `ApiKeys.NewKeyWorks` | internal/apikeys/service.go:68-128 | a new key works for its creator in its organization up to its expiry, and no other key changes |
| `ApiKeys.ListingRespectsGrace` | internal/apikeys/job.go:69-95 | a sweep lists at most 200 keys, all of its organization and more than thirty days past their expiry |
| `ApiKeys.StampKeptIff` | internal/db/apikeys.sql.go:317-321 | the recorded time of a revocation changes if and only if a sweep that listed the key earlier commits |
| `ApiKeys.StampIsOverwritten` | internal/db/apikeys.sql.go:317-321 | a run from the empty table that gets there |
| `ApiKeys.BacklogDrains` | internal/db/apikeys.sql.go:233-240 | however sweeps interleave and whatever else happens, k long-expired keys of an organization are all revoked after k/200 sweeps, rounded up, not counting a sweep when one that counts committed between its listing and its own commit |
| `ApiKeys.OverlapTakesNothing` | cmd/worker/main.go:204-226 | two sweeps that both list before either commits revoke one batch between them, not two |
| `ApiKeys.SweepDrains` | internal/apikeys/job.go:69-95 | one sweep takes a full batch off the backlog or clears it, never crowded out by later expiries |
| `ApiKeys.Service.RevokeExpired` | internal/apikeys/job.go:69-95 | exactly the listed rows are stamped, and their number is reported |
| `ApiKeys.Service.Revoke` | internal/apikeys/service.go:166-195 | an unrevoked key of the organization is stamped; anything else is not found |
| `TaskOrder.CaseOrderIsKeyOrder` | internal/db/tasks.sql.go:189-211 | for every two tasks the list of CASE columns orders them as the selected key, tasks without a due date last, and then the identifier |
| `TaskOrder.KeyOrderIsMeant` | internal/db/tasks.sql.go:189-211 | for each sort key and direction the order is that of the named field, tasks without a due date last, and the identifier decides between equals |
| `TaskOrder.CaseOrderIsTotal` | internal/db/tasks.sql.go:189-211 | it is a strict total order on distinct identifiers |
| `TaskOrder.ListingIsTheAnswer` | internal/db/tasks.sql.go:178-212 | the listing holds exactly the matching rows, sorted, as many as are counted, and no other answer is possible |
| `TaskOrder.SortedIsUnique` | internal/db/tasks.sql.go:189-211 | two sorted arrangements of the same rows are equal |
| `TaskOrder.FilteredExactly` | internal/db/tasks.sql.go:15-26 | the filter keeps exactly the matching rows, each once |
| `TaskOrder.CriteriaNarrow` | internal/db/tasks.sql.go:178-188 | every criterion given narrows the listing by exactly its own field, and without any the organization's tasks remain |
| `Paging.PagesPartition` | internal/httpx/pagination.go:66-73 | the pages a request can ask for show exactly the sorted matching rows if and only if these fit in them; up to the reported count every page has rows, after it none |
| `Paging.TotalPagesIsLeastIff` | internal/httpx/pagination.go:66-73 | for every 64-bit row count, the reported count is the least number of pages that holds every row if and only if adding a page to the row count does not overflow |
| `Paging.PagesArePrefix` | internal/httpx/pagination.go:21-23 | the first n pages are the first n times size rows |
| `Paging.OffsetIsExact` | internal/httpx/pagination.go:21-23 | the offset of an accepted request does not wrap around |
| `Paging.ParsePageRequest` | internal/httpx/pagination.go:41-64 | a request within bounds, or exactly the fields that are wrong |
| `Paging.ParseDecimalIff` | internal/httpx/pagination.go:44-60 | the decimal form of every number is parsed back to it, up to the 32-bit limit and no further |
| `Paging.ParseTakesNumbersOnly` | internal/httpx/pagination.go:44-60 | only decimal digits after at most one sign are read as a number |
| `Paging.ParseMinus` | internal/httpx/pagination.go:44-60 | a minus sign negates down to -2^31, and such a page or size is refused |
| `Paging.ParsePlus` | internal/httpx/pagination.go:44-60 | a plus sign changes nothing |
| `Slugs.SlugifyOrganization` | internal/organizations/service.go:578-599 | the loop form returns the slug of the replace-collapse-trim form, for every name |
| `Slugs.SlugJoinsWords` | internal/auth/slug.go:17-26 | that slug is the words of the lower-case name joined by single dashes, or "org" |
| `Slugs.SlugIsWellFormed` | internal/auth/slug.go:15-26 | nonempty, over letters, digits and dashes, with no leading, trailing or doubled dash |
| `Slugs.SlugIsFixedIff` | internal/auth/slug.go:17-26 | a name is its own slug if and only if it has that shape |
| `Slugs.SlugIsIdempotent` | internal/auth/slug.go:17-26 | slugging twice is slugging once |

## Left out

- HTTP handlers, routing, JSON, logging, metrics and tracing: plumbing without a protocol.
- PostgreSQL, Redis, row-level security and cryptography: only the commands, row predicates and unique indexes the code relies on are modelled.
- Authorization checks before a transaction: the machines let any caller try any step, so the laws hold with fewer steps too. The Owner checks inside transactions are modelled.
- Enqueue timestamps of job records and the idle clock of pending entries: any set of entries may count as idle.
- The removal of already deleted entries from the pending list by XAUTOCLAIM: it only affects entries that no worker can receive.
- Timers, blocking reads, worker shutdown and the drain deadline: `Ack` and `Fail` may be cut off at any command instead.
- Eventual delivery of invitations and of email: the worker's service has no queue, transport errors are swallowed, and a sent link may carry a superseded token, so none of it is promised.
- Deleting expired refresh tokens: the query exists and is never called.
- Revocation times of refresh tokens: a flag stands for them.
- Suspension and removal of members, deletion of users and of organizations: no code path does it.
- Role descriptions, names of organizations and the uniqueness retries for slugs: they add only easy members.
- Paging.PagesPartition: the count and the listing are taken on one snapshot.
- TaskOrder.CaseOrderIsKeyOrder: titles stand for their rank in the database's collation.
- The lifetime chosen for a new API key and its format check: straight-line validation; the expiry is a parameter.
- The loop over active organizations is not modelled: it visits at most 1000 of them, so the drain of the backlog is stated per swept organization.
- Team, project and task changes, activity rows and audit records: field-by-field updates inside the transactions.
