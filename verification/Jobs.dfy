/** One row of `ingestion_jobs` and the statements that rewrite it: the claim, the
    worker's fenced updates, the two cancellation statements and the reconciler's two
    job updates. Each function is the row an UPDATE leaves; `None` means that the WHERE
    clause did not match and the row is untouched. */
module Jobs {
  import opened Support

  datatype Status =
    | AwaitingUpload | Queued | Processing | Completed | CompletedWithIssues
    | FailedRetryable | FailedFinal | CancelRequested | Cancelled

  datatype Source = ManualXml | ManualZip | SatPackage

  /** The nine cached item counters. */
  datatype Counters = Counters(
    total: nat, pending: nat, processing: nat, incorporated: nat, duplicate: nat,
    foreign: nat, invalid: nat, unsupported: nat, internalError: nat)
  {
    function Parts(): nat {
      pending + processing + incorporated + duplicate + foreign + invalid + unsupported + internalError
    }
  }

  datatype Job = Job(
    org: Org,
    source: Source,
    uploadId: Option<Id>,
    rootObject: Option<Id>,
    status: Status,
    counters: Counters,
    reconciledAt: Option<Time>,
    attempts: nat,
    retries: nat,
    nextAttemptAt: Option<Time>,
    workerId: Option<string>,
    lockedBy: Option<string>,
    leaseExpiresAt: Option<Time>,
    heartbeatAt: Option<Time>,
    lastClaimedAt: Option<Time>,
    cancelRequestedAt: Option<Time>,
    startedAt: Option<Time>,
    completedAt: Option<Time>,
    lastErrorCode: Option<string>,
    createdAt: Time,
    updatedAt: Time,
    version: int)

  const LEASE_SECONDS: int := 90
  const MAX_ATTEMPTS: int := 4
  const MAX_RETRIES: int := 3
  const TENANT_CAP: int := 4
  const BACKOFF_SECONDS: seq<int> := [10, 30, 120]

  predicate Terminal(s: Status) {
    s.Completed? || s.CompletedWithIssues? || s.FailedFinal? || s.Cancelled?
  }

  /** The statuses in which a lease may be held. */
  predicate Leased(s: Status) {
    s.Processing? || s.CancelRequested?
  }

  predicate Claimed(s: Status) {
    s.Queued? || s.FailedRetryable?
  }

  predicate IdChar(c: char) {
    'A' <= c <= 'Z' || 'a' <= c <= 'z' || '0' <= c <= '9'
  }

  /** The pattern of worker identifiers and lease tokens. */
  predicate ValidId(s: string) {
    && 1 <= |s| <= 128
    && IdChar(s[0])
    && forall k | 0 <= k < |s| :: IdChar(s[k]) || s[k] in "._:-"
  }

  /** The CHECK constraints of the table that concern the queue. */
  predicate Checks(j: Job) {
    && (if j.source.SatPackage? then j.uploadId.None? && j.rootObject.Some? else j.uploadId.Some? && j.rootObject.Some?)
    && 0 <= j.retries <= 3 && j.retries <= j.attempts
    && (j.workerId.Some? ==> ValidId(j.workerId.value))
    && (j.lockedBy.Some? ==> ValidId(j.lockedBy.value))
    && j.counters.Parts() == j.counters.total
    && (j.status.Processing? ==> j.lockedBy.Some? && j.leaseExpiresAt.Some? && j.heartbeatAt.Some? && j.startedAt.Some?)
    && (Leased(j.status) || (j.lockedBy.None? && j.leaseExpiresAt.None?))
    && ((j.status.CancelRequested? || j.status.Cancelled?) <==> j.cancelRequestedAt.Some?)
    && (Terminal(j.status) <==> j.completedAt.Some?)
    && (Claimed(j.status) ==> j.nextAttemptAt.Some?)
    && j.version > 0
  }

  /** A lease that has not expired: what the tenant cap counts. */
  predicate Live(j: Job, now: Time) {
    Leased(j.status) && After(j.leaseExpiresAt, now)
  }

  // ---- claim_ingestion_job ----------------------------------------------------------

  predicate Claimable(j: Job, sources: set<Source>, now: Time) {
    && Claimed(j.status)
    && Reached(j.nextAttemptAt, now)
    && j.cancelRequestedAt.None?
    && j.retries <= MAX_RETRIES
    && j.source in sources
  }

  function Claim(j: Job, worker: string, token: string, now: Time): Job {
    j.(status := Processing,
       attempts := j.attempts + 1,
       nextAttemptAt := None,
       workerId := Some(worker),
       lockedBy := Some(token),
       leaseExpiresAt := Some(now + LEASE_SECONDS * SECOND),
       heartbeatAt := Some(now),
       lastClaimedAt := Some(now),
       startedAt := Some(Coalesce(j.startedAt, now)),
       completedAt := None,
       updatedAt := now,
       version := j.version + 1)
  }

  // ---- the worker's fenced statements ------------------------------------------------

  /** `locked_by = token AND lease_expires_at > now`. */
  predicate Holds(j: Job, token: string, now: Time) {
    j.lockedBy == Some(token) && After(j.leaseExpiresAt, now)
  }

  datatype Beat = Renewed | CancelSeen | Lost

  function HeartbeatOutcome(j: Job, token: string, now: Time): Beat {
    if !(Holds(j, token, now) && Leased(j.status)) then Lost
    else if j.status.CancelRequested? then CancelSeen
    else Renewed
  }

  function Heartbeat(j: Job, token: string, now: Time): Option<Job> {
    if HeartbeatOutcome(j, token, now).Renewed? then
      Some(j.(heartbeatAt := Some(now), leaseExpiresAt := Some(now + LEASE_SECONDS * SECOND),
              updatedAt := now, version := j.version + 1))
    else None
  }

  /** `complete`: only a processing job completes and only a cancel-requested job is confirmed cancelled. */
  function Complete(j: Job, token: string, target: Status, now: Time): Option<Job> {
    if && Holds(j, token, now)
       && ((j.status.Processing? && (target.Completed? || target.CompletedWithIssues?))
           || (j.status.CancelRequested? && target.Cancelled?))
    then
      Some(j.(status := target, nextAttemptAt := None, lockedBy := None, leaseExpiresAt := None,
              completedAt := Some(now),
              lastErrorCode := if target.Cancelled? then j.lastErrorCode else None,
              updatedAt := now, version := j.version + 1))
    else None
  }

  function FailFinal(j: Job, token: string, errorCode: string, now: Time): Option<Job> {
    if Holds(j, token, now) && j.status.Processing? then
      Some(j.(status := FailedFinal, nextAttemptAt := None, lockedBy := None, leaseExpiresAt := None,
              completedAt := Some(now), lastErrorCode := Some(errorCode),
              updatedAt := now, version := j.version + 1))
    else None
  }

  /** The configured jitter percentage and the value of random() the statement draws. */
  datatype Roll = Roll(percent: nat, draw: real)
  type Jitter = r: Roll | r.percent <= 50 && 0.0 <= r.draw < 1.0 witness Roll(0, 0.0)

  /** Seconds until the next attempt of a job that has been granted `retries` retries so far. */
  function RetryWait(retries: nat, jitter: Jitter): (seconds: nat)
    ensures seconds >= BACKOFF_SECONDS[Min(retries + 1, 3) - 1]
  {
    var base := BACKOFF_SECONDS[Min(retries + 1, |BACKOFF_SECONDS|) - 1];
    var width := (base * jitter.percent) as real / 100.0 + 1.0;
    base + Scaled(jitter.draw, width)
  }

  function Scaled(draw: real, width: real): nat
    requires 0.0 <= draw && 0.0 <= width
  {
    (draw * width).Floor
  }

  function ScheduleRetry(j: Job, token: string, errorCode: string, jitter: Jitter, now: Time): Option<Job> {
    if Holds(j, token, now) && j.status.Processing? then
      Some(if j.retries >= MAX_RETRIES then
             j.(status := FailedFinal, nextAttemptAt := None, lockedBy := None, leaseExpiresAt := None,
                completedAt := Some(now), lastErrorCode := Some(errorCode),
                updatedAt := now, version := j.version + 1)
           else
             j.(status := FailedRetryable, retries := j.retries + 1,
                nextAttemptAt := Some(now + RetryWait(j.retries, jitter) * SECOND),
                lockedBy := None, leaseExpiresAt := None, completedAt := None,
                lastErrorCode := Some(errorCode), updatedAt := now, version := j.version + 1))
    else None
  }

  function Release(j: Job, token: string, now: Time): Option<Job> {
    if Holds(j, token, now) && Leased(j.status) then
      Some(if j.status.CancelRequested? then
             j.(status := Cancelled, nextAttemptAt := None, lockedBy := None, leaseExpiresAt := None,
                completedAt := Some(now), updatedAt := now, version := j.version + 1)
           else
             j.(status := Queued, nextAttemptAt := Some(now), lockedBy := None, leaseExpiresAt := None,
                completedAt := None, updatedAt := now, version := j.version + 1))
    else None
  }

  // ---- cancellation ------------------------------------------------------------------

  /** The publication boundary: a manual_xml job whose items are all terminal may no longer be cancelled. */
  predicate Published(j: Job) {
    j.source.ManualXml? && j.counters.total != 0 && j.counters.pending + j.counters.processing == 0
  }

  /** request_ingestion_job_cancellation, current version. */
  function RequestCancellation(j: Job, now: Time): Option<Job> {
    if Terminal(j.status) || Published(j) then None
    else if Leased(j.status) then
      Some(j.(status := CancelRequested, cancelRequestedAt := Some(Coalesce(j.cancelRequestedAt, now)),
              completedAt := None, updatedAt := now, version := j.version + 1))
    else
      Some(j.(status := Cancelled, cancelRequestedAt := Some(Coalesce(j.cancelRequestedAt, now)),
              nextAttemptAt := None, completedAt := Some(now), updatedAt := now, version := j.version + 1))
  }

  /** What the SAT worker does to the ingestion jobs of a cancelled download. */
  function SatCancel(j: Job, now: Time): Option<Job> {
    if j.source.SatPackage? && (Claimed(j.status) || j.status.Processing?) then
      Some(j.(status := CancelRequested, cancelRequestedAt := Some(now)))
    else None
  }

  // ---- the reconciler's job statements -------------------------------------------------

  predicate LeaseExpired(j: Job, now: Time) {
    Leased(j.status) && Reached(j.leaseExpiresAt, now)
  }

  function RecoverLease(j: Job, jitter: Jitter, now: Time): Option<Job> {
    if !LeaseExpired(j, now) then None
    else
      var unlocked := j.(lockedBy := None, leaseExpiresAt := None, updatedAt := now, version := j.version + 1);
      Some(if j.status.CancelRequested? then
             unlocked.(status := Cancelled, nextAttemptAt := None, completedAt := Some(now))
           else if j.retries >= MAX_RETRIES then
             unlocked.(status := FailedFinal, nextAttemptAt := None, completedAt := Some(now),
                       lastErrorCode := Some("JOB_LEASE_LOST"))
           else
             unlocked.(status := FailedRetryable, retries := j.retries + 1,
                       nextAttemptAt := Some(now + RetryWait(j.retries, jitter) * SECOND),
                       completedAt := None, lastErrorCode := Some("JOB_LEASE_LOST")))
  }

  /** The update of a job whose root object or upload is gone; the WHERE on the other tables is the caller's. */
  function FailOrphan(j: Job, now: Time): Option<Job> {
    if j.status.AwaitingUpload? || Claimed(j.status) then
      Some(j.(status := FailedFinal, nextAttemptAt := None, lockedBy := None, leaseExpiresAt := None,
              completedAt := Some(now), lastErrorCode := Some("JOB_ROOT_OBJECT_UNAVAILABLE"),
              updatedAt := now, version := j.version + 1))
    else None
  }

  // ---- the retry delay ------------------------------------------------------------------

  /** The reachable delays are exactly the whole seconds from the base delay of the granted
      retry (10, 30 or 120) to that delay plus its jitter, rounded up. */
  lemma RetryWaitRange(retries: nat, percent: nat, wait: int)
    requires retries < MAX_RETRIES && percent <= 50
    ensures (exists jitter: Jitter :: jitter.percent == percent && RetryWait(retries, jitter) == wait)
       <==> BACKOFF_SECONDS[retries] <= wait <= BACKOFF_SECONDS[retries] + (BACKOFF_SECONDS[retries] * percent + 99) / 100
  {
    var base := BACKOFF_SECONDS[retries];
    var n := base * percent;
    if jitter: Jitter :| jitter.percent == percent && RetryWait(retries, jitter) == wait {
      ScaledRange(jitter.draw, n);
    }
    if base <= wait <= base + (n + 99) / 100 {
      var draw := DrawReaching(wait - base, n);
      assert RetryWait(retries, Roll(percent, draw)) == wait;
    }
  }

  lemma ScaledRange(draw: real, n: nat)
    requires 0.0 <= draw < 1.0
    ensures Scaled(draw, n as real / 100.0 + 1.0) <= (n + 99) / 100
  {
    var width := n as real / 100.0 + 1.0;
    ScaledBelow(draw, width);
    var k := Scaled(draw, width);
    assert k as real < width;
    assert k as real * 100.0 < n as real + 100.0;
    assert (k * 100) as real < (n + 100) as real;
  }

  lemma ScaledBelow(draw: real, width: real)
    requires 0.0 <= draw < 1.0 && 0.0 < width
    ensures Scaled(draw, width) as real < width
  {
  }

  lemma DrawReaching(k: nat, n: nat) returns (draw: real)
    requires k <= (n + 99) / 100
    ensures 0.0 <= draw < 1.0 && Scaled(draw, n as real / 100.0 + 1.0) == k
  {
    var width := n as real / 100.0 + 1.0;
    assert (k * 100) as real < (n + 100) as real;
    draw := k as real / width;
    QuotientBelowOne(k as real, width);
    assert draw * width == k as real;
  }

  lemma QuotientBelowOne(a: real, b: real)
    requires 0.0 <= a < b
    ensures 0.0 <= a / b < 1.0
  {
  }
}
