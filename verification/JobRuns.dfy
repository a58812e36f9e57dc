/** Whole runs of one job under every statement that can reach its row, in any order and at
    any non-decreasing times: the table's CHECKs, the retry budget, lease exclusivity,
    cancellation, and the one way a job can be stranded. */
module JobRuns {
  import opened Support
  import opened Jobs

  /** The statements. `Recount` is any change of the cached counters: the item trigger, the
      ZIP finaliser, a worker's publication or the reconciler's repair. */
  datatype Event =
    | EClaim(worker: string, token: string, sources: set<Source>)
    | EHeartbeat(token: string)
    | EComplete(token: string, target: Status)
    | EFailFinal(token: string, errorCode: string)
    | ERetry(token: string, errorCode: string, jitter: Jitter)
    | ERelease(token: string)
    | ECancel
    | ESatCancel
    | ERecover(jitter: Jitter)
    | EFailOrphan
    | ERecount(counters: Counters, reconciledAt: Option<Time>)

  function Apply(j: Job, e: Event, now: Time): Option<Job> {
    match e
    case EClaim(worker, token, sources) =>
      if Claimable(j, sources, now) && ValidId(worker) && ValidId(token) then Some(Claim(j, worker, token, now)) else None
    case EHeartbeat(token) => Heartbeat(j, token, now)
    case EComplete(token, target) => Complete(j, token, target, now)
    case EFailFinal(token, errorCode) => FailFinal(j, token, errorCode, now)
    case ERetry(token, errorCode, jitter) => ScheduleRetry(j, token, errorCode, jitter, now)
    case ERelease(token) => Release(j, token, now)
    case ECancel => RequestCancellation(j, now)
    case ESatCancel => SatCancel(j, now)
    case ERecover(jitter) => RecoverLease(j, jitter, now)
    case EFailOrphan => FailOrphan(j, now)
    case ERecount(counters, at) =>
      if counters.Parts() == counters.total then Some(j.(counters := counters, reconciledAt := at)) else None
  }

  /** The interval during which a token held the job: its claim to its expiry, or to the moment
      its holder gave the job back. */
  datatype Lease = Lease(token: string, from: Time, until: Time)

  /** A job with its history: graceful releases so far and every lease ever granted. */
  datatype Trace = Trace(job: Job, releases: nat, leases: seq<Lease>)

  /** The statements only the holder of a live lease may run. */
  predicate Fenced(e: Event) {
    e.EHeartbeat? || e.EComplete? || e.EFailFinal? || e.ERetry? || e.ERelease?
  }

  function Step(t: Trace, e: Event, now: Time): Trace {
    var next := Apply(t.job, e, now);
    if next.None? then t
    else
      Trace(
        next.value,
        if e.ERelease? && next.value.status.Queued? then t.releases + 1 else t.releases,
        if e.EClaim? then t.leases + [Lease(e.token, now, now + LEASE_SECONDS * SECOND)]
        else if Fenced(e) && t.leases != [] then
          var last := |t.leases| - 1;
          t.leases[last := t.leases[last].(until := if e.EHeartbeat? then now + LEASE_SECONDS * SECOND else now)]
        else t.leases)
  }

  datatype Stamped = Stamped(event: Event, at: Time)

  predicate Ordered(run: seq<Stamped>, start: Time)
    decreases |run|
  {
    run != [] ==> start <= run[0].at && Ordered(run[1..], run[0].at)
  }

  function Run(t: Trace, run: seq<Stamped>): Trace
    decreases |run|
  {
    if run == [] then t else Run(Step(t, run[0].event, run[0].at), run[1..])
  }

  /** The clock after a run. */
  function Clock(run: seq<Stamped>, start: Time): Time {
    if run == [] then start else run[|run| - 1].at
  }

  /** A job as admission inserts it. */
  predicate Fresh(t: Trace) {
    && Checks(t.job)
    && (t.job.status.AwaitingUpload? || t.job.status.Queued?)
    && t.job.attempts == 0 && t.job.retries == 0
    && t.releases == 0 && t.leases == []
  }

  // ---- the invariant -------------------------------------------------------------------

  /** Every execution is paid for: each attempt but the one in progress ended in a granted retry or a release. */
  predicate Budget(j: Job, releases: nat) {
    && (j.status.AwaitingUpload? || Claimed(j.status) ==> j.attempts == j.retries + releases)
    && (j.status.Processing? ==> j.attempts == j.retries + releases + 1)
    && j.retries + releases <= j.attempts <= j.retries + releases + 1
    && (j.status.FailedRetryable? ==> j.retries > 0)
  }

  predicate Disjoint(leases: seq<Lease>) {
    forall i, k | 0 <= i < k < |leases| :: leases[i].until <= leases[k].from
  }

  predicate LeaseHistory(j: Job, leases: seq<Lease>, now: Time) {
    && Disjoint(leases)
    && (forall i | 0 <= i < |leases| :: leases[i].from <= leases[i].until && leases[i].from <= now)
    && (j.lockedBy.Some? <==> j.leaseExpiresAt.Some?)
    && (j.leaseExpiresAt.Some? ==>
          leases != [] && var last := leases[|leases| - 1];
                          j.lockedBy == Some(last.token) && j.leaseExpiresAt == Some(last.until))
    && (j.leaseExpiresAt.None? && leases != [] ==> leases[|leases| - 1].until <= now)
  }

  /** The CHECKs alone are not inductive: granting a retry keeps `retries <= attempts` only because a
      running job has paid for one attempt more. */
  predicate Sound(t: Trace) {
    Checks(t.job) && Budget(t.job, t.releases)
  }

  predicate Inv(t: Trace, now: Time) {
    Sound(t) && LeaseHistory(t.job, t.leases, now)
  }

  lemma FreshInv(t: Trace, now: Time)
    requires Fresh(t)
    ensures Inv(t, now)
  {
  }

  lemma StepSound(t: Trace, e: Event, now: Time)
    requires Sound(t)
    ensures Sound(Step(t, e, now))
  {
  }

  lemma StepLeases(t: Trace, e: Event, before: Time, now: Time)
    requires Inv(t, before) && before <= now
    ensures LeaseHistory(Step(t, e, now).job, Step(t, e, now).leases, now)
  {
    var next := Apply(t.job, e, now);
    if next.Some? && Fenced(e) {
      FencedStepLeases(t, e, before, now);
    }
  }

  lemma FencedStepLeases(t: Trace, e: Event, before: Time, now: Time)
    requires Inv(t, before) && before <= now && Fenced(e) && Apply(t.job, e, now).Some?
    ensures LeaseHistory(Step(t, e, now).job, Step(t, e, now).leases, now)
  {
    assert Holds(t.job, e.token, now);
  }

  /** Each statement keeps every CHECK, the budget and the lease history. */
  lemma StepKeepsInv(t: Trace, e: Event, before: Time, now: Time)
    requires Inv(t, before) && before <= now
    ensures Inv(Step(t, e, now), now)
  {
    StepSound(t, e, now);
    StepLeases(t, e, before, now);
  }

  lemma {:induction false} RunKeepsInv(t: Trace, run: seq<Stamped>, start: Time)
    requires Inv(t, start) && Ordered(run, start)
    ensures Inv(Run(t, run), Clock(run, start))
    decreases |run|
  {
    if run != [] {
      StepKeepsInv(t, run[0].event, start, run[0].at);
      RunKeepsInv(Step(t, run[0].event, run[0].at), run[1..], run[0].at);
    }
  }

  // ---- the retry budget ----------------------------------------------------------------

  /** On every run: at most three retries are granted, each is preceded by its own attempt, a
      job being processed has retries < attempts, and the attempts never exceed four plus the
      graceful releases. */
  lemma RetryBudget(t: Trace, run: seq<Stamped>, start: Time)
    requires Fresh(t) && Ordered(run, start)
    ensures var end := Run(t, run);
            && 0 <= end.job.retries <= MAX_RETRIES && end.job.retries <= end.job.attempts
            && (end.job.status.Processing? ==> end.job.retries < end.job.attempts)
            && end.job.attempts <= MAX_ATTEMPTS + end.releases
            && (end.job.status.FailedRetryable? ==> end.job.retries > 0)
            && (end.job.status.Queued? ==> end.job.attempts == end.job.retries + end.releases)
  {
    FreshInv(t, start);
    RunKeepsInv(t, run, start);
  }

  // ---- lease exclusivity ----------------------------------------------------------------

  /** On every run, no instant belongs to two leases of the same job. */
  lemma LeasesNeverOverlap(t: Trace, run: seq<Stamped>, start: Time, i: nat, k: nat, instant: Time)
    requires Fresh(t) && Ordered(run, start)
    requires i < |Run(t, run).leases| && k < |Run(t, run).leases|
    requires var l := Run(t, run).leases[i]; l.from <= instant < l.until
    requires var l := Run(t, run).leases[k]; l.from <= instant < l.until
    ensures i == k
  {
    FreshInv(t, start);
    RunKeepsInv(t, run, start);
  }

  /** A fenced statement changes the row only for the last holder, inside its interval: whoever
      lost the lease can no longer write. */
  lemma OnlyTheHolderWrites(t: Trace, e: Event, before: Time, now: Time)
    requires Inv(t, before) && before <= now
    requires Fenced(e) && Step(t, e, now).job != t.job
    ensures t.leases != [] && var last := t.leases[|t.leases| - 1];
            e.token == last.token && last.from <= now < last.until
  {
    assert Holds(t.job, e.token, now);
  }

  // ---- cancellation and terminal states ---------------------------------------------------

  /** What may still change once a cancellation is stamped: only the confirmation. */
  predicate Stopped(from: Trace, to: Trace) {
    && to.job.cancelRequestedAt == from.job.cancelRequestedAt
    && (to.job.status.CancelRequested? || to.job.status.Cancelled?)
    && (from.job.status.Cancelled? ==> to.job.status.Cancelled? && to.job.completedAt == from.job.completedAt)
    && to.job.attempts == from.job.attempts && to.job.retries == from.job.retries
    && to.job.lastClaimedAt == from.job.lastClaimedAt
    && to.releases == from.releases && |to.leases| == |from.leases|
  }

  lemma StepStopped(t: Trace, e: Event, now: Time)
    requires Sound(t) && t.job.cancelRequestedAt.Some?
    ensures Stopped(t, Step(t, e, now))
  {
  }

  /** After the first cancellation stamp, over every continuation: the stamp is never
      overwritten, the job is never claimed again, no retry is spent and it can only
      become `cancelled`. */
  lemma {:induction false} CancellationIsFinal(t: Trace, run: seq<Stamped>)
    requires Sound(t) && t.job.cancelRequestedAt.Some?
    ensures Stopped(t, Run(t, run))
    decreases |run|
  {
    if run != [] {
      var next := Step(t, run[0].event, run[0].at);
      StepStopped(t, run[0].event, run[0].at);
      StepSound(t, run[0].event, run[0].at);
      CancellationIsFinal(next, run[1..]);
    }
  }

  /** A terminal job stays as it ended over every continuation; only its counters may be recounted. */
  lemma {:induction false} TerminalIsFinal(t: Trace, run: seq<Stamped>)
    requires Sound(t) && Terminal(t.job.status)
    ensures var end := Run(t, run);
            end == t.(job := t.job.(counters := end.job.counters, reconciledAt := end.job.reconciledAt))
    decreases |run|
  {
    if run != [] {
      var next := Step(t, run[0].event, run[0].at);
      StepSound(t, run[0].event, run[0].at);
      assert next == t.(job := t.job.(counters := next.job.counters, reconciledAt := next.job.reconciledAt));
      TerminalIsFinal(next, run[1..]);
    }
  }

  /** Repeating a cancellation request changes neither the status nor the stamp, whatever happened in between
      to the clock; on a job it refused the first time it keeps refusing. */
  lemma CancellationIsIdempotent(t: Trace, first: Time, again: Time)
    requires Sound(t)
    ensures var once := Step(t, ECancel, first);
            var twice := Step(once, ECancel, again);
            && twice.job.status == once.job.status
            && twice.job.cancelRequestedAt == once.job.cancelRequestedAt
            && twice.job.completedAt == once.job.completedAt
            && (t.job == once.job ==> twice.job == once.job)
  {
    if RequestCancellation(t.job, first).Some? {
      StepSound(t, ECancel, first);
      StepStopped(Step(t, ECancel, first), ECancel, again);
    }
  }

  /** A manual_xml job that was published before any cancellation is never cancelled, as long as
      its recounts keep saying so. */
  lemma {:induction false} PublishedIsNeverCancelled(t: Trace, run: seq<Stamped>)
    requires Sound(t) && Published(t.job) && t.job.cancelRequestedAt.None?
    requires forall k | 0 <= k < |run| && run[k].event.ERecount? ::
               var c := run[k].event.counters; c.total != 0 && c.pending + c.processing == 0
    ensures var end := Run(t, run).job;
            end.cancelRequestedAt.None? && !end.status.Cancelled? && !end.status.CancelRequested?
    decreases |run|
  {
    if run != [] {
      var next := Step(t, run[0].event, run[0].at);
      StepSound(t, run[0].event, run[0].at);
      assert Published(next.job) && next.job.cancelRequestedAt.None?;
      PublishedIsNeverCancelled(next, run[1..]);
    }
  }

  // ---- no wedge, and the one exception -----------------------------------------------------

  /** A cancel-requested job without a lease: every CHECK holds, yet no statement can end it. */
  predicate Stranded(j: Job) {
    j.status.CancelRequested? && j.leaseExpiresAt.None?
  }

  /** The SAT worker's cancellation reached the job while it was waiting, not running. */
  predicate StrandedOnTheWay(t: Trace, run: seq<Stamped>)
    decreases |run|
  {
    run != [] &&
    ((run[0].event.ESatCancel? && t.job.source.SatPackage? && Claimed(t.job.status))
     || StrandedOnTheWay(Step(t, run[0].event, run[0].at), run[1..]))
  }

  lemma StepStranded(t: Trace, e: Event, before: Time, now: Time)
    requires Inv(t, before) && before <= now
    ensures Stranded(Step(t, e, now).job)
       <==> Stranded(t.job) || (e.ESatCancel? && t.job.source.SatPackage? && Claimed(t.job.status))
  {
  }

  /** Exactly when a job is stranded: on every run, a job ends cancel-requested without a lease if
      and only if the SAT worker cancelled it while it was queued or waiting for a retry. */
  lemma {:induction false} StrandedExactlyBySatCancel(t: Trace, run: seq<Stamped>, start: Time)
    requires Inv(t, start) && !Stranded(t.job) && Ordered(run, start)
    ensures Stranded(Run(t, run).job) <==> StrandedOnTheWay(t, run)
    decreases |run|
  {
    if run != [] {
      var now := run[0].at;
      var next := Step(t, run[0].event, now);
      StepStranded(t, run[0].event, start, now);
      StepKeepsInv(t, run[0].event, start, now);
      if Stranded(next.job) {
        StrandedForever(next, run[1..], now);
      } else {
        StrandedExactlyBySatCancel(next, run[1..], now);
      }
    }
  }

  /** Once stranded, a job stays cancel-requested over every continuation: no lease recovery, no
      confirmation, no further request moves it. */
  lemma {:induction false} StrandedForever(t: Trace, run: seq<Stamped>, start: Time)
    requires Inv(t, start) && Stranded(t.job) && Ordered(run, start)
    ensures Stranded(Run(t, run).job)
    decreases |run|
  {
    if run != [] {
      StepStranded(t, run[0].event, start, run[0].at);
      StepKeepsInv(t, run[0].event, start, run[0].at);
      StrandedForever(Step(t, run[0].event, run[0].at), run[1..], run[0].at);
    }
  }

  /** No other job can be stuck behind a lease: unless stranded, a job in a leased status has an
      expiry, and from that moment recovery ends it or sends it back to the queue. */
  lemma RecoveryIsEnabled(t: Trace, before: Time, now: Time, jitter: Jitter)
    requires Inv(t, before) && before <= now
    requires Leased(t.job.status) && !Stranded(t.job)
    ensures t.job.leaseExpiresAt.Some?
    ensures var after := Step(t, ERecover(jitter), now).job;
            if t.job.leaseExpiresAt.value > now then after == t.job
            else if t.job.status.CancelRequested? then after.status.Cancelled? && after.retries == t.job.retries
            else if t.job.retries == MAX_RETRIES then after.status.FailedFinal? && after.retries == t.job.retries
            else && after.status.FailedRetryable? && after.retries == t.job.retries + 1
                 && after.nextAttemptAt.value >= now + 10 * SECOND
  {
    assert BACKOFF_SECONDS[0] == 10 && BACKOFF_SECONDS[1] == 30 && BACKOFF_SECONDS[2] == 120;
  }

  /** A claimable SAT job that the SAT worker cancels ends stranded: the failing input. */
  lemma SatCancelStrands(job: Job, now: Time)
    requires Checks(job) && job.source.SatPackage? && Claimed(job.status)
    ensures var after := Step(Trace(job, 0, []), ESatCancel, now).job;
            Checks(after) && Stranded(after)
            && forall jitter: Jitter, later: Time :: RecoverLease(after, jitter, later).None?
  {
  }
}
