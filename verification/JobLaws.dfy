/** What each statement does to a job, on the columns of the row and in figures: when it applies, and what the row says afterwards. */
module JobLaws {
  import opened Support
  import opened Jobs
  import JobRuns

  predicate HeldBy(j: Job, token: string, now: Time) {
    j.lockedBy == Some(token) && j.leaseExpiresAt.Some? && j.leaseExpiresAt.value > now
  }

  /** Not one of the four statuses in which a job has ended. */
  predicate Lives(j: Job) {
    || j.status.AwaitingUpload? || j.status.Queued? || j.status.Processing? || j.status.FailedRetryable? || j.status.CancelRequested?
  }

  /** The columns no worker statement, cancellation or recovery writes. */
  predicate SameFacts(was: Job, row: Job) {
    && row.org == was.org && row.source == was.source && row.uploadId == was.uploadId && row.rootObject == was.rootObject
    && row.counters == was.counters && row.reconciledAt == was.reconciledAt && row.workerId == was.workerId
    && row.lastClaimedAt == was.lastClaimedAt && row.startedAt == was.startedAt && row.createdAt == was.createdAt
    && row.attempts == was.attempts
  }

  predicate Touched(was: Job, row: Job, now: Time) {
    row.updatedAt == now && row.version == was.version + 1
  }

  /** The job has ended in this status: no lease, no next attempt, completed now. */
  predicate EndedAs(row: Job, status: Status, now: Time) {
    row.status == status && row.completedAt == Some(now) && row.nextAttemptAt.None? && row.lockedBy.None? && row.leaseExpiresAt.None?
  }

  /** The delay before retry number `granted + 1`: 10, 30 or 120 seconds and at most the jitter, rounded up. */
  predicate DueAgain(row: Job, granted: nat, percent: nat, now: Time) {
    var base := if granted == 0 then 10 else if granted == 1 then 30 else 120;
    row.nextAttemptAt.Some? && now + base * 1_000_000 <= row.nextAttemptAt.value <= now + (base + (base * percent + 99) / 100) * 1_000_000
  }

  /** A failed execution: one of three retries, or the end. */
  predicate FailedOnce(was: Job, row: Job, percent: nat, error: string, now: Time) {
    && row.lastErrorCode == Some(error) && row.cancelRequestedAt == was.cancelRequestedAt && row.heartbeatAt == was.heartbeatAt
    && (was.retries < 3 ==>
          && row.status.FailedRetryable? && row.retries == was.retries + 1 && DueAgain(row, was.retries, percent, now)
          && row.completedAt.None? && row.lockedBy.None? && row.leaseExpiresAt.None?)
    && (was.retries >= 3 ==> EndedAs(row, FailedFinal, now) && row.retries == was.retries)
  }

  predicate HeartbeatLaw(j: Job, token: string, now: Time, row: Option<Job>) {
    && (row.Some? <==> j.status.Processing? && HeldBy(j, token, now))
    && (row.Some? ==>
          && row.value.status.Processing? && row.value.lockedBy == j.lockedBy
          && row.value.leaseExpiresAt == Some(now + 90_000_000) && row.value.heartbeatAt == Some(now)
          && SameFacts(j, row.value) && Touched(j, row.value, now) && row.value.retries == j.retries
          && row.value.cancelRequestedAt == j.cancelRequestedAt && row.value.completedAt == j.completedAt
          && row.value.nextAttemptAt == j.nextAttemptAt && row.value.lastErrorCode == j.lastErrorCode)
  }

  predicate CompleteLaw(j: Job, token: string, target: Status, now: Time, row: Option<Job>) {
    && (row.Some? <==>
          && HeldBy(j, token, now)
          && (if target.Cancelled? then j.status.CancelRequested?
              else (target.Completed? || target.CompletedWithIssues?) && j.status.Processing?))
    && (row.Some? ==>
          && EndedAs(row.value, target, now) && SameFacts(j, row.value) && Touched(j, row.value, now) && row.value.retries == j.retries
          && row.value.cancelRequestedAt == j.cancelRequestedAt && row.value.heartbeatAt == j.heartbeatAt
          && row.value.lastErrorCode == (if target.Cancelled? then j.lastErrorCode else None))
  }

  predicate FailFinalLaw(j: Job, token: string, error: string, now: Time, row: Option<Job>) {
    && (row.Some? <==> j.status.Processing? && HeldBy(j, token, now))
    && (row.Some? ==>
          && EndedAs(row.value, FailedFinal, now) && SameFacts(j, row.value) && Touched(j, row.value, now) && row.value.retries == j.retries
          && row.value.cancelRequestedAt == j.cancelRequestedAt && row.value.lastErrorCode == Some(error))
  }

  predicate RetryLaw(j: Job, token: string, error: string, percent: nat, now: Time, row: Option<Job>) {
    && (row.Some? <==> j.status.Processing? && HeldBy(j, token, now))
    && (row.Some? ==> FailedOnce(j, row.value, percent, error, now) && SameFacts(j, row.value) && Touched(j, row.value, now))
  }

  /** A graceful release costs no retry: the job is due at once, unless it was to be cancelled. */
  predicate ReleaseLaw(j: Job, token: string, now: Time, row: Option<Job>) {
    && (row.Some? <==> (j.status.Processing? || j.status.CancelRequested?) && HeldBy(j, token, now))
    && (row.Some? ==>
          && SameFacts(j, row.value) && Touched(j, row.value, now) && row.value.retries == j.retries
          && row.value.cancelRequestedAt == j.cancelRequestedAt && row.value.lastErrorCode == j.lastErrorCode
          && (if j.status.CancelRequested? then EndedAs(row.value, Cancelled, now)
              else && row.value.status.Queued? && row.value.nextAttemptAt == Some(now) && row.value.completedAt.None?
                   && row.value.lockedBy.None? && row.value.leaseExpiresAt.None?))
  }

  /** A request is refused when the job has ended or its manual_xml items are all finished; a waiting job is cancelled at once, a
      running one keeps its lease and is asked to stop. The first stamp stays. */
  predicate CancelLaw(j: Job, now: Time, row: Option<Job>) {
    && (row.Some? <==>
          Lives(j) && !(j.source.ManualXml? && j.counters.total > 0 && j.counters.pending == 0 && j.counters.processing == 0))
    && (row.Some? ==>
          && SameFacts(j, row.value) && Touched(j, row.value, now) && row.value.retries == j.retries
          && row.value.cancelRequestedAt == (if j.cancelRequestedAt.Some? then j.cancelRequestedAt else Some(now))
          && row.value.lockedBy == j.lockedBy && row.value.leaseExpiresAt == j.leaseExpiresAt && row.value.lastErrorCode == j.lastErrorCode
          && (if j.status.Processing? || j.status.CancelRequested?
              then row.value.status.CancelRequested? && row.value.completedAt.None? && row.value.nextAttemptAt == j.nextAttemptAt
              else row.value.status.Cancelled? && row.value.completedAt == Some(now) && row.value.nextAttemptAt.None?))
  }

  /** The SAT worker stamps waiting and running jobs of its packages alike and touches nothing else. */
  predicate SatCancelLaw(j: Job, now: Time, row: Option<Job>) {
    && (row.Some? <==> j.source.SatPackage? && (j.status.Queued? || j.status.FailedRetryable? || j.status.Processing?))
    && (row.Some? ==>
          && row.value.status.CancelRequested? && row.value.cancelRequestedAt == Some(now)
          && row.value.(status := j.status, cancelRequestedAt := j.cancelRequestedAt) == j)
  }

  /** An expired lease: a cancellation is confirmed without spending a retry, anything else counts as a failed execution. */
  predicate RecoverLaw(j: Job, percent: nat, now: Time, row: Option<Job>) {
    && (row.Some? <==> (j.status.Processing? || j.status.CancelRequested?) && j.leaseExpiresAt.Some? && j.leaseExpiresAt.value <= now)
    && (row.Some? ==>
          && SameFacts(j, row.value) && Touched(j, row.value, now)
          && (if j.status.CancelRequested?
              then EndedAs(row.value, Cancelled, now) && row.value.retries == j.retries && row.value.lastErrorCode == j.lastErrorCode
                   && row.value.cancelRequestedAt == j.cancelRequestedAt
              else FailedOnce(j, row.value, percent, "JOB_LEASE_LOST", now)))
  }

  predicate OrphanLaw(j: Job, now: Time, row: Option<Job>) {
    && (row.Some? <==> j.status.AwaitingUpload? || j.status.Queued? || j.status.FailedRetryable?)
    && (row.Some? ==>
          && EndedAs(row.value, FailedFinal, now) && SameFacts(j, row.value) && Touched(j, row.value, now) && row.value.retries == j.retries
          && row.value.lastErrorCode == Some("JOB_ROOT_OBJECT_UNAVAILABLE") && row.value.cancelRequestedAt == j.cancelRequestedAt)
  }

  /** The law of each statement but the claim, whose law is on the whole table, and the recounts, whose law is on the items. */
  predicate StatementLaw(j: Job, e: JobRuns.Event, now: Time, row: Option<Job>) {
    match e
    case EHeartbeat(token) => HeartbeatLaw(j, token, now, row)
    case EComplete(token, target) => CompleteLaw(j, token, target, now, row)
    case EFailFinal(token, error) => FailFinalLaw(j, token, error, now, row)
    case ERetry(token, error, jitter) => RetryLaw(j, token, error, jitter.percent, now, row)
    case ERelease(token) => ReleaseLaw(j, token, now, row)
    case ECancel => CancelLaw(j, now, row)
    case ESatCancel => SatCancelLaw(j, now, row)
    case ERecover(jitter) => RecoverLaw(j, jitter.percent, now, row)
    case EFailOrphan => OrphanLaw(j, now, row)
    case EClaim(_, _, _) => true
    case ERecount(_, _) => true
  }

  lemma DelayInFigures(granted: nat, jitter: Jitter)
    requires granted < 3
    ensures var base := if granted == 0 then 10 else if granted == 1 then 30 else 120;
            base <= RetryWait(granted, jitter) <= base + (base * jitter.percent + 99) / 100
  {
    var base := BACKOFF_SECONDS[granted];
    ScaledRange(jitter.draw, base * jitter.percent);
  }

  lemma RetryObeysLaw(j: Job, token: string, error: string, jitter: Jitter, now: Time)
    ensures RetryLaw(j, token, error, jitter.percent, now, ScheduleRetry(j, token, error, jitter, now))
  {
    if j.retries < 3 {
      DelayInFigures(j.retries, jitter);
    }
  }

  lemma RecoveryObeysLaw(j: Job, jitter: Jitter, now: Time)
    ensures RecoverLaw(j, jitter.percent, now, RecoverLease(j, jitter, now))
  {
    if j.retries < 3 {
      DelayInFigures(j.retries, jitter);
    }
  }

  /** Every statement obeys its law on every row, at every time. */
  lemma StatementsObeyLaws(j: Job, e: JobRuns.Event, now: Time)
    ensures StatementLaw(j, e, now, JobRuns.Apply(j, e, now))
  {
    match e
    case ERetry(token, error, jitter) => RetryObeysLaw(j, token, error, jitter, now);
    case ERecover(jitter) => RecoveryObeysLaw(j, jitter, now);
    case _ =>
  }

  /** A failed execution of a job that was granted fewer than three retries is due again, and no earlier than 10, 30 or 120 seconds later. */
  lemma FailureIsRetried(j: Job, token: string, error: string, jitter: Jitter, now: Time)
    requires j.status.Processing? && j.lockedBy == Some(token) && j.leaseExpiresAt.Some? && j.leaseExpiresAt.value > now && j.retries < 3
    ensures var row := ScheduleRetry(j, token, error, jitter, now);
            && row.Some? && row.value.status.FailedRetryable? && row.value.nextAttemptAt.Some?
            && row.value.nextAttemptAt.value >= now + (if j.retries == 0 then 10 else if j.retries == 1 then 30 else 120) * 1_000_000
  {
    RetryObeysLaw(j, token, error, jitter, now);
  }

  /** The CHECKs of the table, column by column, over every run from admission: what each status says about lease, schedule, cancellation
      and completion. */
  lemma ColumnsOverRuns(t: JobRuns.Trace, run: seq<JobRuns.Stamped>, start: Time)
    requires JobRuns.Fresh(t) && JobRuns.Ordered(run, start)
    ensures var j := JobRuns.Run(t, run).job;
            && (j.status.Processing? ==> j.lockedBy.Some? && j.leaseExpiresAt.Some? && j.heartbeatAt.Some? && j.startedAt.Some?)
            && (j.lockedBy.Some? || j.leaseExpiresAt.Some? ==> j.status.Processing? || j.status.CancelRequested?)
            && (j.cancelRequestedAt.Some? <==> j.status.CancelRequested? || j.status.Cancelled?)
            && (j.completedAt.Some? <==>
                  j.status.Completed? || j.status.CompletedWithIssues? || j.status.FailedFinal? || j.status.Cancelled?)
            && (j.status.Queued? || j.status.FailedRetryable? ==> j.nextAttemptAt.Some?)
            && 0 <= j.retries <= 3 && j.retries <= j.attempts
            && j.counters.pending + j.counters.processing + j.counters.incorporated + j.counters.duplicate + j.counters.foreign
               + j.counters.invalid + j.counters.unsupported + j.counters.internalError == j.counters.total
            && (j.source.SatPackage? <==> j.uploadId.None?) && j.rootObject.Some? && j.version > 0
  {
    JobRuns.FreshInv(t, start);
    JobRuns.RunKeepsInv(t, run, start);
  }
}
