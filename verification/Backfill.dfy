/** The migration that introduced the retry budget. Before it, retries were not counted in the row:
    the attempt count alone decided, and each granted retry left one audit row. The migration rebuilds
    the count from those rows and refuses to run when the result cannot be right. */
module Backfill {
  import opened Support
  import opened Jobs
  import JobRuns
  import JobLaws

  // ---- the queue before the migration ---------------------------------------------------------

  datatype Subject = JobSubject | OtherSubject

  datatype Action = RetryScheduled | LeaseReconciled | OtherAction

  /** An audit row: what it is about, what happened, and the status in its metadata. */
  datatype Audit = Audit(subject: Subject, id: Id, action: Action, status: Option<Status>)

  const OLD_MAX_ATTEMPTS: int := 3

  /** `granted` and `releases` are history, not columns: the retries and graceful releases each job really had. */
  datatype State = State(jobs: map<Id, Job>, log: seq<Audit>, granted: map<Id, nat>, releases: map<Id, nat>)

  datatype Move =
    | Admit(id: Id, job: Job)
    | ClaimOld(id: Id, worker: string, token: string, sources: set<Source>, now: Time)
    | RecoverOld(id: Id, jitter: Jitter, now: Time)
    | RetryOld(id: Id, token: string, errorCode: string, jitter: Jitter, now: Time)
    | CancelOld(id: Id, now: Time)
    | Plain(id: Id, event: JobRuns.Event, now: Time)
    | Note(audit: Audit)

  predicate ClaimableOld(j: Job, sources: set<Source>, now: Time) {
    Claimed(j.status) && Reached(j.nextAttemptAt, now) && j.cancelRequestedAt.None? && j.attempts < OLD_MAX_ATTEMPTS && j.source in sources
  }

  /** The outcome of a failed execution: final once the attempts are used up. */
  function FailOld(j: Job, errorCode: string, jitter: Jitter, now: Time): Job {
    var unlocked := j.(lockedBy := None, leaseExpiresAt := None, lastErrorCode := Some(errorCode), updatedAt := now, version := j.version + 1);
    if j.attempts >= OLD_MAX_ATTEMPTS then
      unlocked.(status := FailedFinal, nextAttemptAt := None, completedAt := Some(now))
    else
      unlocked.(status := FailedRetryable, completedAt := None,
                nextAttemptAt := Some(now + RetryWait(if j.attempts == 0 then 0 else j.attempts - 1, jitter) * SECOND))
  }

  function RecoverLeaseOld(j: Job, jitter: Jitter, now: Time): Option<Job> {
    if !LeaseExpired(j, now) then None
    else if j.status.CancelRequested? then
      Some(j.(status := Cancelled, nextAttemptAt := None, lockedBy := None, leaseExpiresAt := None, completedAt := Some(now),
              updatedAt := now, version := j.version + 1))
    else Some(FailOld(j, "JOB_LEASE_LOST", jitter, now))
  }

  /** The cancellation of that time: any job that has not ended, published or not. */
  function RequestCancellationOld(j: Job, now: Time): Option<Job> {
    if Terminal(j.status) then None
    else if Leased(j.status) then
      Some(j.(status := CancelRequested, cancelRequestedAt := Some(Coalesce(j.cancelRequestedAt, now)),
              completedAt := None, updatedAt := now, version := j.version + 1))
    else
      Some(j.(status := Cancelled, cancelRequestedAt := Some(Coalesce(j.cancelRequestedAt, now)),
              nextAttemptAt := None, completedAt := Some(now), updatedAt := now, version := j.version + 1))
  }

  /** Row, audit row and history of one transition of job `id`. */
  function Commit(s: State, id: Id, row: Job, audit: seq<Audit>): State
    requires id in s.jobs && id in s.granted
  {
    State(s.jobs[id := row], s.log + audit,
          if row.status.FailedRetryable? && !s.jobs[id].status.FailedRetryable? then s.granted[id := s.granted[id] + 1] else s.granted,
          s.releases)
  }

  /** The statements that have not changed since; a claim, a retry, a recovery and a cancellation have their own moves. */
  predicate PlainEvent(e: JobRuns.Event) {
    !e.EClaim? && !e.ERetry? && !e.ERecover? && !e.ECancel?
  }

  function Next(s: State, m: Move): State {
    match m
    case Admit(id, job) =>
      if id in s.jobs || !JobRuns.Fresh(JobRuns.Trace(job, 0, [])) || RetryRows(s.log, id) > 0 then s
      else State(s.jobs[id := job], s.log, s.granted[id := 0], s.releases[id := 0])
    case ClaimOld(id, worker, token, sources, now) =>
      if id in s.jobs && ValidId(worker) && ValidId(token) && ClaimableOld(s.jobs[id], sources, now)
      then s.(jobs := s.jobs[id := Claim(s.jobs[id], worker, token, now)]) else s
    case RecoverOld(id, jitter, now) =>
      if id in s.jobs && id in s.granted && RecoverLeaseOld(s.jobs[id], jitter, now).Some? then
        var row := RecoverLeaseOld(s.jobs[id], jitter, now).value;
        Commit(s, id, row, [Audit(JobSubject, id, LeaseReconciled, Some(row.status))])
      else s
    case RetryOld(id, token, errorCode, jitter, now) =>
      if id in s.jobs && id in s.granted && Holds(s.jobs[id], token, now) && s.jobs[id].status.Processing? then
        var row := FailOld(s.jobs[id], errorCode, jitter, now);
        Commit(s, id, row, [Audit(JobSubject, id, RetryScheduled, Some(row.status))])
      else s
    case CancelOld(id, now) =>
      if id in s.jobs then s.(jobs := s.jobs[id := Coalesce(RequestCancellationOld(s.jobs[id], now), s.jobs[id])]) else s
    case Plain(id, event, now) =>
      if id in s.jobs && id in s.releases && PlainEvent(event) then
        var t := JobRuns.Step(JobRuns.Trace(s.jobs[id], s.releases[id], []), event, now);
        s.(jobs := s.jobs[id := t.job], releases := s.releases[id := t.releases])
      else s
    case Note(audit) => if RetryRow(audit) then s else s.(log := s.log + [audit])
  }

  // ---- the migration ---------------------------------------------------------------------------

  /** The rows the migration counts. */
  predicate RetryRow(a: Audit) {
    a.subject.JobSubject? && (a.action.RetryScheduled? || a.action.LeaseReconciled?) && a.status == Some(FailedRetryable)
  }

  function RetryRows(log: seq<Audit>, id: Id): nat {
    if log == [] then 0
    else RetryRows(log[..|log| - 1], id) + (if RetryRow(log[|log| - 1]) && log[|log| - 1].id == id then 1 else 0)
  }

  datatype MigrationError = CannotInferBudget | HistoryExceedsAttempts

  /** The column starts at zero and is set for the jobs that have audit rows, clamped to 0..3. */
  function Backfilled(s: State): map<Id, Job> {
    map id | id in s.jobs :: s.jobs[id].(retries := Min(3, RetryRows(s.log, id)))
  }

  function Migrate(s: State): Result<map<Id, Job>, MigrationError> {
    var jobs := Backfilled(s);
    if exists id | id in jobs :: jobs[id].status.FailedRetryable? && jobs[id].retries == 0 then Err(CannotInferBudget)
    else if exists id | id in jobs :: jobs[id].retries > jobs[id].attempts then Err(HistoryExceedsAttempts)
    else Ok(jobs)
  }

  // ---- on the columns ------------------------------------------------------------------------------

  /** A failed execution of that time: final after three attempts, else due again after the delay of its attempt. */
  predicate FailedOld(was: Job, row: Job, percent: nat, error: string, now: Time) {
    && JobLaws.SameFacts(was, row) && JobLaws.Touched(was, row, now) && row.retries == was.retries
    && row.cancelRequestedAt == was.cancelRequestedAt && row.lastErrorCode == Some(error)
    && (if was.attempts >= 3 then JobLaws.EndedAs(row, FailedFinal, now)
        else && row.status.FailedRetryable? && row.completedAt.None? && row.lockedBy.None? && row.leaseExpiresAt.None?
             && JobLaws.DueAgain(row, if was.attempts <= 1 then 0 else 1, percent, now))
  }

  /** The old statements in figures: three attempts, and a cancellation of any job that had not ended. */
  lemma OldStatementsInFigures(j: Job, error: string, jitter: Jitter, sources: set<Source>, now: Time)
    requires j.attempts >= 0
    ensures FailedOld(j, FailOld(j, error, jitter, now), jitter.percent, error, now)
    ensures ClaimableOld(j, sources, now)
       <==> && (j.status.Queued? || j.status.FailedRetryable?) && j.nextAttemptAt.Some? && j.nextAttemptAt.value <= now
            && j.cancelRequestedAt.None? && j.attempts < 3 && j.source in sources
    ensures var row := RecoverLeaseOld(j, jitter, now);
            && (row.Some? <==> (j.status.Processing? || j.status.CancelRequested?) && j.leaseExpiresAt.Some? && j.leaseExpiresAt.value <= now)
            && (row.Some? && j.status.CancelRequested? ==>
                  JobLaws.EndedAs(row.value, Cancelled, now) && row.value.retries == j.retries && row.value.lastErrorCode == j.lastErrorCode)
            && (row.Some? && j.status.Processing? ==> FailedOld(j, row.value, jitter.percent, "JOB_LEASE_LOST", now))
    ensures var row := RequestCancellationOld(j, now);
            && (row.Some? <==> JobLaws.Lives(j))
            && (row.Some? ==>
                  && row.value.cancelRequestedAt == (if j.cancelRequestedAt.Some? then j.cancelRequestedAt else Some(now))
                  && row.value.lockedBy == j.lockedBy && row.value.leaseExpiresAt == j.leaseExpiresAt
                  && (if j.status.Processing? || j.status.CancelRequested? then row.value.status.CancelRequested? && row.value.completedAt.None?
                      else row.value.status.Cancelled? && row.value.completedAt == Some(now) && row.value.nextAttemptAt.None?))
  {
    if j.attempts < 3 {
      JobLaws.DelayInFigures(if j.attempts == 0 then 0 else j.attempts - 1, jitter);
    }
  }

  /** The audit rows of a job that say it went back to wait for a retry. */
  function ReturnedRows(log: seq<Audit>, id: Id): set<nat> {
    set k: nat | k < |log| && log[k].subject == JobSubject && log[k].id == id && log[k].status == Some(FailedRetryable)
              && (log[k].action == RetryScheduled || log[k].action == LeaseReconciled)
  }

  lemma {:induction false} RetryRowsAreCounted(log: seq<Audit>, id: Id)
    ensures RetryRows(log, id) == |ReturnedRows(log, id)|
  {
    if log != [] {
      var n := |log| - 1;
      RetryRowsAreCounted(log[..n], id);
      if RetryRow(log[n]) && log[n].id == id {
        assert ReturnedRows(log, id) == ReturnedRows(log[..n], id) + {n};
      } else {
        assert ReturnedRows(log, id) == ReturnedRows(log[..n], id);
      }
    }
  }

  /** On any tables: each job gets the number of its audit rows, three at most; the migration stops exactly if a job waiting for a retry has
      none, or one has more than its attempts. */
  lemma MigrationByRows(s: State)
    ensures Migrate(s).Ok? <==> forall id | id in s.jobs ::
              && (s.jobs[id].status == FailedRetryable ==> |ReturnedRows(s.log, id)| >= 1)
              && (|ReturnedRows(s.log, id)| <= s.jobs[id].attempts || 3 <= s.jobs[id].attempts)
    ensures Migrate(s).Ok? ==>
              && Migrate(s).value.Keys == s.jobs.Keys
              && forall id | id in s.jobs ::
                   Migrate(s).value[id] == s.jobs[id].(retries := if |ReturnedRows(s.log, id)| > 3 then 3 else |ReturnedRows(s.log, id)|)
  {
    forall id | id in s.jobs
      ensures RetryRows(s.log, id) == |ReturnedRows(s.log, id)|
           && Backfilled(s)[id] == s.jobs[id].(retries := if |ReturnedRows(s.log, id)| > 3 then 3 else |ReturnedRows(s.log, id)|)
    {
      RetryRowsAreCounted(s.log, id);
    }
  }

  // ---- the migration is exact ---------------------------------------------------------------------

  function Run(s: State, moves: seq<Move>): State
    decreases |moves|
  {
    if moves == [] then s else Run(Next(s, moves[0]), moves[1..])
  }

  /** The row the new queue would have if the history were known. */
  function Informed(s: State, id: Id): JobRuns.Trace
    requires id in s.jobs && id in s.granted && id in s.releases
  {
    JobRuns.Trace(s.jobs[id].(retries := s.granted[id]), s.releases[id], [])
  }

  predicate JobInv(s: State, id: Id) {
    && id in s.granted && id in s.releases && id in s.jobs
    && s.granted[id] == RetryRows(s.log, id)
    && s.granted[id] < OLD_MAX_ATTEMPTS && s.jobs[id].attempts <= OLD_MAX_ATTEMPTS
    && JobRuns.Sound(Informed(s, id))
  }

  predicate Inv(s: State) {
    forall id | id in s.jobs :: JobInv(s, id)
  }

  lemma LogGrows(log: seq<Audit>, a: Audit, id: Id)
    ensures RetryRows(log + [a], id) == RetryRows(log, id) + (if RetryRow(a) && a.id == id then 1 else 0)
  {
    assert (log + [a])[..|log|] == log;
  }

  /** One more retry is granted exactly when the row goes back to `failed_retryable`, and the audit row says so. */
  lemma FailOldSound(j: Job, granted: nat, releases: nat, errorCode: string, jitter: Jitter, now: Time)
    requires JobRuns.Sound(JobRuns.Trace(j.(retries := granted), releases, []))
    requires j.status.Processing? && j.attempts <= OLD_MAX_ATTEMPTS && granted < OLD_MAX_ATTEMPTS
    ensures var row := FailOld(j, errorCode, jitter, now);
            var after := if row.status.FailedRetryable? then granted + 1 else granted;
            && row.attempts == j.attempts && after < OLD_MAX_ATTEMPTS
            && JobRuns.Sound(JobRuns.Trace(row.(retries := after), releases, []))
  {
  }

  lemma FailOldKeepsInv(s: State, id: Id, errorCode: string, jitter: Jitter, now: Time, audit: Audit)
    requires Inv(s) && id in s.jobs && s.jobs[id].status.Processing? && id in s.granted
    requires audit.subject.JobSubject? && audit.id == id && !audit.action.OtherAction?
    requires audit.status == Some(FailOld(s.jobs[id], errorCode, jitter, now).status)
    ensures Inv(Commit(s, id, FailOld(s.jobs[id], errorCode, jitter, now), [audit]))
  {
    assert JobInv(s, id);
    FailOldSound(s.jobs[id], s.granted[id], s.releases[id], errorCode, jitter, now);
    var t := Commit(s, id, FailOld(s.jobs[id], errorCode, jitter, now), [audit]);
    forall k | k in t.jobs ensures JobInv(t, k) {
      LogGrows(s.log, audit, k);
      assert JobInv(s, k);
    }
  }

  lemma PlainKeepsInv(s: State, id: Id, e: JobRuns.Event, now: Time)
    requires Inv(s) && id in s.jobs && PlainEvent(e)
    ensures Inv(Next(s, Plain(id, e, now)))
  {
    var t := Next(s, Plain(id, e, now));
    assert JobInv(s, id);
    JobRuns.StepSound(Informed(s, id), e, now);
    PlainStepKeepsRetries(s.jobs[id], s.releases[id], s.granted[id], e, now);
    forall k | k in t.jobs ensures JobInv(t, k) {
      assert JobInv(s, k);
    }
  }

  /** A plain statement neither reads nor writes the retry count. */
  lemma PlainStepKeepsRetries(j: Job, releases: nat, granted: nat, e: JobRuns.Event, now: Time)
    requires PlainEvent(e)
    ensures var blind := JobRuns.Step(JobRuns.Trace(j, releases, []), e, now);
            var seen := JobRuns.Step(JobRuns.Trace(j.(retries := granted), releases, []), e, now);
            seen == blind.(job := blind.job.(retries := granted)) && blind.job.attempts == j.attempts
  {
  }

  /** A row is changed while the history is not. */
  lemma RowKeepsInv(s: State, id: Id, row: Job)
    requires Inv(s) && id in s.jobs && row.attempts <= OLD_MAX_ATTEMPTS
    requires id in s.granted && id in s.releases
    requires JobRuns.Sound(JobRuns.Trace(row.(retries := s.granted[id]), s.releases[id], []))
    ensures Inv(s.(jobs := s.jobs[id := row]))
  {
    var t := s.(jobs := s.jobs[id := row]);
    forall k | k in t.jobs ensures JobInv(t, k) {
      assert JobInv(s, k);
    }
  }

  lemma ClaimOldSound(j: Job, granted: nat, releases: nat, worker: string, token: string, sources: set<Source>, now: Time)
    requires JobRuns.Sound(JobRuns.Trace(j.(retries := granted), releases, []))
    requires ClaimableOld(j, sources, now) && ValidId(worker) && ValidId(token)
    ensures JobRuns.Sound(JobRuns.Trace(Claim(j, worker, token, now).(retries := granted), releases, []))
  {
  }

  lemma ClaimKeepsInv(s: State, m: Move)
    requires Inv(s) && m.ClaimOld?
    ensures Inv(Next(s, m))
  {
    if m.id in s.jobs && ValidId(m.worker) && ValidId(m.token) && ClaimableOld(s.jobs[m.id], m.sources, m.now) {
      assert JobInv(s, m.id);
      ClaimOldSound(s.jobs[m.id], s.granted[m.id], s.releases[m.id], m.worker, m.token, m.sources, m.now);
      RowKeepsInv(s, m.id, Claim(s.jobs[m.id], m.worker, m.token, m.now));
    }
  }

  lemma RequestOldSound(j: Job, granted: nat, releases: nat, now: Time)
    requires JobRuns.Sound(JobRuns.Trace(j.(retries := granted), releases, []))
    ensures var row := Coalesce(RequestCancellationOld(j, now), j);
            row.attempts == j.attempts && JobRuns.Sound(JobRuns.Trace(row.(retries := granted), releases, []))
  {
  }

  lemma CancelKeepsInv(s: State, m: Move)
    requires Inv(s) && m.CancelOld?
    ensures Inv(Next(s, m))
  {
    if m.id in s.jobs {
      assert JobInv(s, m.id);
      RequestOldSound(s.jobs[m.id], s.granted[m.id], s.releases[m.id], m.now);
      RowKeepsInv(s, m.id, Coalesce(RequestCancellationOld(s.jobs[m.id], m.now), s.jobs[m.id]));
    }
  }

  /** The boundary came later: the old queue cancels a waiting manual_xml job whose items are all published. */
  lemma OldQueueCancelsPublished(j: Job, now: Time)
    requires Published(j) && Claimed(j.status)
    ensures RequestCancellationOld(j, now).Some? && RequestCancellationOld(j, now).value.status.Cancelled?
    ensures RequestCancellation(j, now).None?
  {
  }

  lemma NoteKeepsInv(s: State, audit: Audit)
    requires Inv(s) && !RetryRow(audit)
    ensures Inv(s.(log := s.log + [audit]))
  {
    var t := s.(log := s.log + [audit]);
    forall k | k in t.jobs ensures JobInv(t, k) {
      LogGrows(s.log, audit, k);
      assert JobInv(s, k);
    }
  }

  lemma CancelOldSound(j: Job, granted: nat, releases: nat, jitter: Jitter, now: Time)
    requires JobRuns.Sound(JobRuns.Trace(j.(retries := granted), releases, []))
    requires j.status.CancelRequested? && LeaseExpired(j, now)
    ensures var row := RecoverLeaseOld(j, jitter, now).value;
            row.attempts == j.attempts && row.status.Cancelled?
            && JobRuns.Sound(JobRuns.Trace(row.(retries := granted), releases, []))
  {
  }

  lemma RecoverKeepsInv(s: State, m: Move)
    requires Inv(s) && m.RecoverOld?
    ensures Inv(Next(s, m))
  {
    if m.id in s.jobs && LeaseExpired(s.jobs[m.id], m.now) {
      assert JobInv(s, m.id);
      var row := RecoverLeaseOld(s.jobs[m.id], m.jitter, m.now).value;
      var audit := Audit(JobSubject, m.id, LeaseReconciled, Some(row.status));
      if s.jobs[m.id].status.Processing? {
        FailOldKeepsInv(s, m.id, "JOB_LEASE_LOST", m.jitter, m.now, audit);
      } else {
        CancelOldSound(s.jobs[m.id], s.granted[m.id], s.releases[m.id], m.jitter, m.now);
        RowKeepsInv(s, m.id, row);
        NoteKeepsInv(s.(jobs := s.jobs[m.id := row]), audit);
      }
    }
  }

  lemma AdmitKeepsInv(s: State, m: Move)
    requires Inv(s) && m.Admit?
    ensures Inv(Next(s, m))
  {
    var t := Next(s, m);
    forall k | k in t.jobs ensures JobInv(t, k) {
      if k in s.jobs {
        assert JobInv(s, k);
      }
    }
  }

  lemma NextKeepsInv(s: State, m: Move)
    requires Inv(s)
    ensures Inv(Next(s, m))
  {
    match m
    case Admit(_, _) => AdmitKeepsInv(s, m);
    case ClaimOld(_, _, _, _, _) => ClaimKeepsInv(s, m);
    case RecoverOld(_, _, _) => RecoverKeepsInv(s, m);
    case RetryOld(id, token, errorCode, jitter, now) =>
      if id in s.jobs && id in s.granted && Holds(s.jobs[id], token, now) && s.jobs[id].status.Processing? {
        var row := FailOld(s.jobs[id], errorCode, jitter, now);
        FailOldKeepsInv(s, id, errorCode, jitter, now, Audit(JobSubject, id, RetryScheduled, Some(row.status)));
      }
    case CancelOld(_, _) => CancelKeepsInv(s, m);
    case Plain(id, e, now) =>
      if id in s.jobs && PlainEvent(e) {
        PlainKeepsInv(s, id, e, now);
      }
    case Note(audit) =>
      if !RetryRow(audit) {
        NoteKeepsInv(s, audit);
      }
  }

  lemma {:induction false} RunKeepsInv(s: State, moves: seq<Move>)
    requires Inv(s)
    ensures Inv(Run(s, moves))
    decreases |moves|
  {
    if moves != [] {
      NextKeepsInv(s, moves[0]);
      RunKeepsInv(Next(s, moves[0]), moves[1..]);
    }
  }

  /** The backfill is exact: after any run of the old queue the migration succeeds, gives every job exactly the retries
      it was granted, never more than its attempts and at least one for a job waiting for a retry, and leaves
      every row in the invariant of the new queue. */
  lemma BackfillIsExact(moves: seq<Move>)
    ensures var s := Run(State(map[], [], map[], map[]), moves);
            && Migrate(s).Ok?
            && var jobs := Migrate(s).value;
               && jobs.Keys == s.jobs.Keys
               && forall id | id in jobs ::
                    && id in s.granted && id in s.releases
                    && jobs[id] == s.jobs[id].(retries := s.granted[id])
                    && s.granted[id] <= jobs[id].attempts
                    && (jobs[id].status.FailedRetryable? ==> jobs[id].retries > 0)
                    && JobRuns.Sound(JobRuns.Trace(jobs[id], s.releases[id], []))
  {
    var start := State(map[], [], map[], map[]);
    RunKeepsInv(start, moves);
    var s := Run(start, moves);
    forall id | id in s.jobs
      ensures id in s.granted && id in s.releases
           && Backfilled(s)[id] == Informed(s, id).job && JobRuns.Sound(Informed(s, id))
    {
      assert JobInv(s, id);
    }
  }
}
