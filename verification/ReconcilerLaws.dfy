/** Which rows a run of reconciler statements may change, on the columns of the rows and in figures: what must be true of an upload,
    an object or a job that is found changed, and what is true of every row once there is nothing left to do. */
module ReconcilerLaws {
  import opened Support
  import opened Jobs
  import opened Items
  import opened Objects
  import opened Reconciler
  import opened ReconcilerRuns

  // ---- what no statement does ------------------------------------------------------------------------

  /** A job has ended. */
  predicate Over(j: Job) {
    j.status.Completed? || j.status.CompletedWithIssues? || j.status.FailedFinal? || j.status.Cancelled?
  }

  /** A job waits for a worker or is with one. */
  predicate InQueue(j: Job) {
    j.status.Queued? || j.status.FailedRetryable? || j.status.Processing? || j.status.CancelRequested?
  }

  predicate ItemsEvolve(s: ItemTable, t: ItemTable) {
    t.Keys == s.Keys
    && forall k | k in s :: t[k].org == s[k].org && t[k].job == s[k].job && t[k].objectId == s[k].objectId && (s[k].technical == Done ==> t[k] == s[k])
  }

  predicate JobsEvolve(s: JobTable, t: JobTable) {
    t.Keys == s.Keys
    && forall k | k in s ::
         && t[k].org == s[k].org && t[k].rootObject == s[k].rootObject && t[k].uploadId == s[k].uploadId
         && (Over(s[k]) ==> t[k].status == s[k].status) && (!InQueue(s[k]) ==> !InQueue(t[k]))
         && (t[k].status.Processing? || t[k].status.CancelRequested? ==>
               t[k].status == s[k].status && t[k].leaseExpiresAt == s[k].leaseExpiresAt)
  }

  predicate UploadsEvolve(s: UploadTable, t: UploadTable) {
    t.Keys == s.Keys
    && forall k | k in s ::
         && t[k].org == s[k].org && t[k].objectId == s[k].objectId && t[k].expiresAt == s[k].expiresAt && t[k].confirmedAt == s[k].confirmedAt
         && (t[k].state == s[k].state
             || (t[k].state.UExpired? && (s[k].state.UPending? || s[k].state.UReceiving? || s[k].state.UUploaded?)))
         && (s[k].reportedAt.Some? ==> t[k].reportedAt == s[k].reportedAt)
         && (s[k].state.UExpired? ==> t[k].lastErrorCode == s[k].lastErrorCode)
  }

  predicate ObjectsEvolve(s: ObjectTable, t: ObjectTable) {
    t.Keys == s.Keys
    && forall k | k in s ::
         && t[k].identity == s[k].identity && t[k].createdAt == s[k].createdAt && t[k].holdUntil == s[k].holdUntil
         && (t[k].lifecycle == s[k].lifecycle || t[k].lifecycle.Rejected?) && (s[k].lifecycle.Deleted? <==> t[k].lifecycle.Deleted?)
         && (s[k].retentionUntil.Some? ==> t[k].retentionUntil.Some? && t[k].retentionUntil.value <= s[k].retentionUntil.value)
         && (s[k].redundantAt.Some? ==> t[k].redundantAt == s[k].redundantAt)
         && (s[k].eligibleAt.Some? ==> t[k].eligibleAt == s[k].eligibleAt)
  }

  predicate Evolves(s: State, t: State) {
    ItemsEvolve(s.items, t.items) && JobsEvolve(s.jobs, t.jobs) && UploadsEvolve(s.uploads, t.uploads) && ObjectsEvolve(s.objects, t.objects)
  }

  lemma UpdateEvolves(s: State, rows: JobTable, now: Time)
    requires RowsOf(s.jobs, rows)
    requires forall id | id in rows ::
               !Over(s.jobs[id]) && (!InQueue(s.jobs[id]) ==> !InQueue(rows[id])) && !Leased(rows[id].status)
    ensures Evolves(s, UpdateJobs(s, rows, now))
  {
    UpdateJobsRows(s, rows, now);
    UpdateItemsEvolve(s.items, rows, Finalised(s.jobs, rows), now);
    UpdateObjectsEvolve(s, rows, now);
  }

  lemma UpdateItemsEvolve(items: ItemTable, rows: JobTable, zips: set<Id>, now: Time)
    requires zips <= rows.Keys
    ensures ItemsEvolve(items, FinishedItems(items, rows, zips, now))
  {
  }

  lemma UpdateObjectsEvolve(s: State, rows: JobTable, now: Time)
    ensures ObjectsEvolve(s.objects, UpdateJobs(s, rows, now).objects)
  {
    forall id | id in s.objects
      ensures var was, row := s.objects[id], UpdateJobs(s, rows, now).objects[id];
              && row == was.(retentionUntil := row.retentionUntil)
              && (was.retentionUntil.Some? ==> row.retentionUntil.Some? && row.retentionUntil.value <= was.retentionUntil.value)
    {
    }
  }

  lemma StatementEvolves(s: State, p: Phase, batch: set<Id>, rolls: map<Id, Jitter>, now: Time)
    requires batch <= Candidates(s, p, now)
    ensures Evolves(s, Exec(s, p, batch, rolls, now))
  {
    match p
    case Leases =>
      RecoveredRowsEvolve(s, batch, rolls, now);
      UpdateEvolves(s, RecoverRows(s.jobs, batch, rolls, now), now);
    case OrphanJobs =>
      OrphanedRowsEvolve(s, batch, now);
      UpdateEvolves(s, OrphanRows(s, batch, now), now);
    case Uploads => ExpiryEvolves(s, batch, now);
    case OrphanObjects => RejectionEvolves(s, batch, now);
    case JoblessUploads => ReportEvolves(s, batch, now);
    case DirtyCounters =>
    case RedundantObjects => RedundancyEvolves(s, batch, now);
    case Retention => EligibilityEvolves(s, batch, now);
  }

  lemma ExpiryEvolves(s: State, batch: set<Id>, now: Time)
    requires batch <= Candidates(s, Uploads, now)
    ensures Evolves(s, ExpireUploads(s, batch, now))
  {
    forall id | id in batch ensures UploadDue(s.uploads, id, now) {
      assert Candidate(s, Uploads, id, now);
    }
  }

  lemma RejectionEvolves(s: State, batch: set<Id>, now: Time)
    requires batch <= Candidates(s, OrphanObjects, now)
    ensures Evolves(s, RejectOrphans(s, batch, now))
  {
    forall id | id in batch ensures OrphanObject(s.jobs, s.uploads, s.objects, id, now) {
      assert Candidate(s, OrphanObjects, id, now);
    }
  }

  lemma ReportEvolves(s: State, batch: set<Id>, now: Time)
    requires batch <= Candidates(s, JoblessUploads, now)
    ensures Evolves(s, ReportJobless(s, batch, now))
  {
    forall id | id in batch ensures Jobless(s.jobs, s.uploads, s.objects, id, now) {
      assert Candidate(s, JoblessUploads, id, now);
    }
  }

  lemma RedundancyEvolves(s: State, batch: set<Id>, now: Time)
    requires batch <= Candidates(s, RedundantObjects, now)
    ensures Evolves(s, ReportRedundant(s, batch, now))
  {
    forall id | id in batch ensures Redundant(s.items, s.objects, id, now) {
      assert Candidate(s, RedundantObjects, id, now);
    }
  }

  lemma EligibilityEvolves(s: State, batch: set<Id>, now: Time)
    requires batch <= Candidates(s, Retention, now)
    ensures Evolves(s, ReportEligible(s, batch, now))
  {
    forall id | id in batch ensures RetentionDue(s.jobs, s.objects, id, now) {
      assert Candidate(s, Retention, id, now);
    }
  }

  lemma RecoveredRowsEvolve(s: State, batch: set<Id>, rolls: map<Id, Jitter>, now: Time)
    requires batch <= Candidates(s, Leases, now)
    ensures var rows := RecoverRows(s.jobs, batch, rolls, now);
            RowsOf(s.jobs, rows)
            && forall id | id in rows :: !Over(s.jobs[id]) && InQueue(s.jobs[id]) && !Leased(rows[id].status)
  {
    RecoverRowsShape(s, batch, rolls, now);
  }

  lemma OrphanedRowsEvolve(s: State, batch: set<Id>, now: Time)
    requires batch <= Candidates(s, OrphanJobs, now)
    ensures var rows := OrphanRows(s, batch, now);
            RowsOf(s.jobs, rows)
            && forall id | id in rows :: !Over(s.jobs[id]) && !InQueue(rows[id]) && !Leased(rows[id].status)
  {
    OrphanRowsShape(s, batch, now);
  }

  lemma EvolvesTwice(s: State, t: State, u: State)
    requires Evolves(s, t) && Evolves(t, u)
    ensures Evolves(s, u)
  {
    ItemsTwice(s.items, t.items, u.items);
    JobsTwice(s.jobs, t.jobs, u.jobs);
    UploadsTwice(s.uploads, t.uploads, u.uploads);
    ObjectsTwice(s.objects, t.objects, u.objects);
  }

  lemma ItemsTwice(s: ItemTable, t: ItemTable, u: ItemTable)
    requires ItemsEvolve(s, t) && ItemsEvolve(t, u)
    ensures ItemsEvolve(s, u)
  {
  }

  lemma JobsTwice(s: JobTable, t: JobTable, u: JobTable)
    requires JobsEvolve(s, t) && JobsEvolve(t, u)
    ensures JobsEvolve(s, u)
  {
  }

  lemma UploadsTwice(s: UploadTable, t: UploadTable, u: UploadTable)
    requires UploadsEvolve(s, t) && UploadsEvolve(t, u)
    ensures UploadsEvolve(s, u)
  {
  }

  lemma ObjectsTwice(s: ObjectTable, t: ObjectTable, u: ObjectTable)
    requires ObjectsEvolve(s, t) && ObjectsEvolve(t, u)
    ensures ObjectsEvolve(s, u)
  {
  }

  lemma {:induction false} RunEvolves(s: State, run: seq<Statement>, now: Time)
    requires Legal(s, run, now)
    ensures Evolves(s, Execute(s, run, now))
    decreases |run|
  {
    if run != [] {
      var t := Exec(s, run[0].phase, run[0].batch, run[0].rolls, now);
      StatementEvolves(s, run[0].phase, run[0].batch, run[0].rolls, now);
      RunEvolves(t, run[1..], now);
      EvolvesTwice(s, t, Execute(t, run[1..], now));
    }
  }

  // ---- what must be true of a changed row --------------------------------------------------------------

  /** A redundant object: a day old, and its tenant has items on it, every one of which ended as a duplicate. */
  predicate OnlyDuplicates(t: State, id: Id, now: Time)
    requires id in t.objects
  {
    var o := t.objects[id];
    && (exists k | k in t.items :: t.items[k].org == o.identity.org && t.items[k].objectId == Some(id))
    && (forall k | k in t.items && t.items[k].org == o.identity.org && t.items[k].objectId == Some(id) ::
          t.items[k].technical == Done && t.items[k].product == Some(Duplicate))
    && o.createdAt + 86_400_000_000 <= now
  }

  /** A rejected object: no upload of its tenant is still to come or confirmed, every job it is the root of has ended, and it is an
      hour old or its upload has expired. */
  predicate Unclaimed(t: State, id: Id, now: Time)
    requires id in t.objects
  {
    var o := t.objects[id];
    && (forall u | u in t.uploads && t.uploads[u].org == o.identity.org && t.uploads[u].objectId == id ::
          t.uploads[u].state.UExpired? || t.uploads[u].state.UFailed? || t.uploads[u].state.UCancelled?)
    && (forall j | j in t.jobs && t.jobs[j].org == o.identity.org && t.jobs[j].rootObject == Some(id) ::
          t.jobs[j].status.Completed? || t.jobs[j].status.CompletedWithIssues? || t.jobs[j].status.FailedFinal? || t.jobs[j].status.Cancelled?)
    && (o.createdAt + 3_600_000_000 <= now
        || exists u | u in t.uploads :: t.uploads[u].org == o.identity.org && t.uploads[u].objectId == id && t.uploads[u].state.UExpired?)
  }

  /** An object past its retention: the date has come, no hold is ahead, it is not deleted and no job in the queue has it as its root. */
  predicate PastRetention(t: State, id: Id, now: Time)
    requires id in t.objects
  {
    var o := t.objects[id];
    && o.retentionUntil.Some? && o.retentionUntil.value <= now && (o.holdUntil.None? || o.holdUntil.value <= now) && !o.lifecycle.Deleted?
    && forall j | j in t.jobs && t.jobs[j].org == o.identity.org && t.jobs[j].rootObject == Some(id) ::
         !(t.jobs[j].status.Queued? || t.jobs[j].status.FailedRetryable? || t.jobs[j].status.Processing? || t.jobs[j].status.CancelRequested?)
  }

  /** A confirmed upload without a job: confirmed an hour ago, and no job of its tenant names it or its object. */
  predicate WithoutJob(t: State, id: Id, now: Time)
    requires id in t.uploads
  {
    var u := t.uploads[id];
    && u.state.UConfirmed? && u.confirmedAt.Some? && u.confirmedAt.value + 3_600_000_000 <= now
    && u.objectId in t.objects && t.objects[u.objectId].identity.org == u.org
    && forall j | j in t.jobs && t.jobs[j].org == u.org :: t.jobs[j].uploadId != Some(id) && t.jobs[j].rootObject != Some(u.objectId)
  }

  /** A job has lost its input: the root object is missing, another tenant's, rejected or deleted, or so is the upload, or it came to nothing. */
  predicate InputLost(t: State, id: Id)
    requires id in t.jobs
  {
    var j := t.jobs[id];
    || j.rootObject.None? || j.rootObject.value !in t.objects || t.objects[j.rootObject.value].identity.org != j.org
    || t.objects[j.rootObject.value].lifecycle.Rejected? || t.objects[j.rootObject.value].lifecycle.Deleted?
    || (j.uploadId.Some?
        && (j.uploadId.value !in t.uploads || t.uploads[j.uploadId.value].org != j.org
            || t.uploads[j.uploadId.value].state.UExpired? || t.uploads[j.uploadId.value].state.UFailed?
            || t.uploads[j.uploadId.value].state.UCancelled?))
  }

  predicate RedundantLaw(s: State, t: State, id: Id, now: Time)
    requires id in s.objects && id in t.objects
  {
    s.objects[id].redundantAt.None? && t.objects[id].redundantAt.Some? ==>
      && OnlyDuplicates(t, id, now) && t.objects[id].redundantAt == Some(now)
      && t.objects[id].retentionUntil.Some? && t.objects[id].retentionUntil.value <= now
  }

  predicate RejectedLaw(s: State, t: State, id: Id, now: Time)
    requires id in s.objects && id in t.objects
  {
    t.objects[id].lifecycle != s.objects[id].lifecycle ==>
      && (s.objects[id].lifecycle.PendingUpload? || s.objects[id].lifecycle.Uploaded?) && t.objects[id].lifecycle.Rejected?
      && Unclaimed(t, id, now)
      && t.objects[id].retentionUntil.Some?
      && (s.objects[id].retentionUntil.Some? ==> t.objects[id].retentionUntil.value <= s.objects[id].retentionUntil.value)
  }

  predicate EligibleLaw(s: State, t: State, id: Id, now: Time)
    requires id in s.objects && id in t.objects
  {
    s.objects[id].eligibleAt.None? && t.objects[id].eligibleAt.Some? ==> PastRetention(t, id, now) && t.objects[id].eligibleAt == Some(now)
  }

  predicate UploadLaw(s: State, t: State, id: Id, now: Time)
    requires id in s.uploads && id in t.uploads
  {
    && (t.uploads[id].state != s.uploads[id].state ==>
          && (s.uploads[id].state.UPending? || s.uploads[id].state.UReceiving? || s.uploads[id].state.UUploaded?)
          && t.uploads[id].state.UExpired? && t.uploads[id].expiresAt <= now && t.uploads[id].lastErrorCode == Some("UPLOAD_EXPIRED"))
    && (s.uploads[id].reportedAt.None? && t.uploads[id].reportedAt.Some? ==>
          WithoutJob(t, id, now) && t.uploads[id].reportedAt == Some(now))
  }

  /** A job whose status changed had an expired lease, or waited and had lost its input. */
  predicate JobLaw(s: State, t: State, id: Id, now: Time)
    requires id in s.jobs && id in t.jobs
  {
    t.jobs[id].status != s.jobs[id].status ==>
      || ((s.jobs[id].status.Processing? || s.jobs[id].status.CancelRequested?)
          && s.jobs[id].leaseExpiresAt.Some? && s.jobs[id].leaseExpiresAt.value <= now)
      || ((s.jobs[id].status.AwaitingUpload? || s.jobs[id].status.Queued? || s.jobs[id].status.FailedRetryable?)
          && t.jobs[id].status.FailedFinal? && InputLost(t, id))
  }

  /** Every row of the tables after a run, against the tables before. */
  predicate ChangesLawful(s: State, t: State, now: Time) {
    && t.objects.Keys == s.objects.Keys && t.uploads.Keys == s.uploads.Keys && t.jobs.Keys == s.jobs.Keys
    && (forall id | id in s.objects :: RedundantLaw(s, t, id, now) && RejectedLaw(s, t, id, now) && EligibleLaw(s, t, id, now))
    && (forall id | id in s.uploads :: UploadLaw(s, t, id, now))
    && (forall id | id in s.jobs :: JobLaw(s, t, id, now))
  }

  // ---- statement by statement -----------------------------------------------------------------------------

  /** Nothing changed of what the laws speak of. */
  predicate Unchanged(s: State, t: State) {
    && t.objects.Keys == s.objects.Keys && t.uploads.Keys == s.uploads.Keys && t.jobs.Keys == s.jobs.Keys
    && (forall id | id in s.objects ::
          t.objects[id].lifecycle == s.objects[id].lifecycle && t.objects[id].redundantAt == s.objects[id].redundantAt
          && t.objects[id].eligibleAt == s.objects[id].eligibleAt)
    && (forall id | id in s.uploads :: t.uploads[id].state == s.uploads[id].state && t.uploads[id].reportedAt == s.uploads[id].reportedAt)
  }

  lemma RecoveryLawful(s: State, batch: set<Id>, rolls: map<Id, Jitter>, now: Time)
    requires batch <= Candidates(s, Leases, now)
    ensures ChangesLawful(s, RecoverLeases(s, batch, rolls, now), now)
  {
    var rows := RecoverRows(s.jobs, batch, rolls, now);
    RecoverRowsShape(s, batch, rolls, now);
    UpdateJobsRows(s, rows, now);
    assert Unchanged(s, RecoverLeases(s, batch, rolls, now));
    forall id | id in batch ensures LeaseDue(s.jobs, id, now) {
      assert Candidate(s, Leases, id, now);
    }
  }

  lemma ExpiryLawful(s: State, batch: set<Id>, now: Time)
    requires batch <= Candidates(s, Uploads, now)
    ensures ChangesLawful(s, ExpireUploads(s, batch, now), now)
  {
    forall id | id in batch ensures UploadDue(s.uploads, id, now) {
      assert Candidate(s, Uploads, id, now);
    }
  }

  lemma RejectionLawful(s: State, batch: set<Id>, now: Time)
    requires batch <= Candidates(s, OrphanObjects, now)
    ensures ChangesLawful(s, RejectOrphans(s, batch, now), now)
  {
    var t := RejectOrphans(s, batch, now);
    forall id | id in s.objects ensures RejectedLaw(s, t, id, now) {
      if id in batch {
        assert Candidate(s, OrphanObjects, id, now);
        OrphanOnColumns(s, t, id, now);
      }
    }
  }

  lemma OrphanOnColumns(s: State, t: State, id: Id, now: Time)
    requires OrphanObject(s.jobs, s.uploads, s.objects, id, now) && id in t.objects
    requires t.jobs == s.jobs && t.uploads == s.uploads && t.objects[id].identity == s.objects[id].identity
    requires t.objects[id].createdAt == s.objects[id].createdAt
    ensures Unclaimed(t, id, now)
  {
    var org := s.objects[id].identity.org;
    forall u | u in s.uploads && s.uploads[u].org == org && s.uploads[u].objectId == id
      ensures !Open(s.uploads[u].state) && !s.uploads[u].state.UConfirmed?
    {
    }
    forall j | j in s.jobs && s.jobs[j].org == org && s.jobs[j].rootObject == Some(id) ensures Terminal(s.jobs[j].status) {
    }
  }

  lemma JoblessLawful(s: State, batch: set<Id>, now: Time)
    requires batch <= Candidates(s, JoblessUploads, now)
    ensures ChangesLawful(s, ReportJobless(s, batch, now), now)
  {
    var t := ReportJobless(s, batch, now);
    forall id | id in s.uploads ensures UploadLaw(s, t, id, now) {
      if id in batch {
        assert Candidate(s, JoblessUploads, id, now);
        assert !HasJobFor(s.jobs, s.uploads[id].org, id, s.uploads[id].objectId);
      }
    }
  }

  lemma OrphansLawful(s: State, batch: set<Id>, now: Time)
    requires batch <= Candidates(s, OrphanJobs, now)
    ensures ChangesLawful(s, FailOrphans(s, batch, now), now)
  {
    var rows := OrphanRows(s, batch, now);
    var t := FailOrphans(s, batch, now);
    OrphanRowsShape(s, batch, now);
    UpdateJobsRows(s, rows, now);
    assert Unchanged(s, t);
    forall id | id in s.jobs ensures JobLaw(s, t, id, now) {
      if id in batch {
        assert Candidate(s, OrphanJobs, id, now);
        LostOnColumns(s, t, id);
      }
    }
  }

  lemma LostOnColumns(s: State, t: State, id: Id)
    requires OrphanJob(s.jobs, s.uploads, s.objects, id) && id in t.jobs && SameScope(s.jobs[id], t.jobs[id])
    requires t.uploads == s.uploads && t.objects.Keys == s.objects.Keys
    requires forall k | k in s.objects :: t.objects[k].identity == s.objects[k].identity && t.objects[k].lifecycle == s.objects[k].lifecycle
    ensures InputLost(t, id)
  {
  }

  lemma RedundancyLawful(s: State, batch: set<Id>, now: Time)
    requires batch <= Candidates(s, RedundantObjects, now)
    ensures ChangesLawful(s, ReportRedundant(s, batch, now), now)
  {
    var t := ReportRedundant(s, batch, now);
    forall id | id in s.objects ensures RedundantLaw(s, t, id, now) {
      if id in batch {
        assert Candidate(s, RedundantObjects, id, now);
        DuplicatesOnColumns(s, t, id, now);
      }
    }
  }

  lemma DuplicatesOnColumns(s: State, t: State, id: Id, now: Time)
    requires Redundant(s.items, s.objects, id, now) && t.items == s.items && id in t.objects
    requires t.objects[id].identity == s.objects[id].identity && t.objects[id].createdAt == s.objects[id].createdAt
    ensures OnlyDuplicates(t, id, now)
  {
    var org := s.objects[id].identity.org;
    forall k | k in s.items && s.items[k].org == org && s.items[k].objectId == Some(id) ensures DuplicateItem(s.items[k]) {
    }
  }

  lemma EligibilityLawful(s: State, batch: set<Id>, now: Time)
    requires batch <= Candidates(s, Retention, now)
    ensures ChangesLawful(s, ReportEligible(s, batch, now), now)
  {
    var t := ReportEligible(s, batch, now);
    forall id | id in s.objects ensures EligibleLaw(s, t, id, now) {
      if id in batch {
        assert Candidate(s, Retention, id, now);
        assert !HasQueuedJob(s.jobs, s.objects[id].identity.org, id);
      }
    }
  }

  lemma RepairLawful(s: State, batch: set<Id>, now: Time)
    ensures ChangesLawful(s, RepairDirty(s, batch, now), now)
  {
  }

  lemma StatementLawful(s: State, p: Phase, batch: set<Id>, rolls: map<Id, Jitter>, now: Time)
    requires batch <= Candidates(s, p, now)
    ensures ChangesLawful(s, Exec(s, p, batch, rolls, now), now)
  {
    match p
    case Leases => RecoveryLawful(s, batch, rolls, now);
    case Uploads => ExpiryLawful(s, batch, now);
    case OrphanObjects => RejectionLawful(s, batch, now);
    case JoblessUploads => JoblessLawful(s, batch, now);
    case OrphanJobs => OrphansLawful(s, batch, now);
    case DirtyCounters => RepairLawful(s, batch, now);
    case RedundantObjects => RedundancyLawful(s, batch, now);
    case Retention => EligibilityLawful(s, batch, now);
  }

  // ---- and over runs ------------------------------------------------------------------------------------------

  lemma DuplicatesStay(t: State, u: State, id: Id, now: Time)
    requires Evolves(t, u) && id in t.objects && OnlyDuplicates(t, id, now)
    ensures OnlyDuplicates(u, id, now)
  {
    var org := t.objects[id].identity.org;
    var k :| k in t.items && t.items[k].org == org && t.items[k].objectId == Some(id);
    assert u.items[k] == t.items[k];
  }

  lemma UnclaimedStays(t: State, u: State, id: Id, now: Time)
    requires Evolves(t, u) && id in t.objects && Unclaimed(t, id, now)
    ensures Unclaimed(u, id, now)
  {
    var org := t.objects[id].identity.org;
    if x :| x in t.uploads && t.uploads[x].org == org && t.uploads[x].objectId == id && t.uploads[x].state.UExpired? {
      assert u.uploads[x].state.UExpired?;
    }
  }

  lemma PastRetentionStays(t: State, u: State, id: Id, now: Time)
    requires Evolves(t, u) && id in t.objects && PastRetention(t, id, now)
    ensures PastRetention(u, id, now)
  {
    forall j | j in u.jobs && u.jobs[j].org == u.objects[id].identity.org && u.jobs[j].rootObject == Some(id) ensures !InQueue(u.jobs[j]) {
      assert !InQueue(t.jobs[j]);
    }
  }

  lemma WithoutJobStays(t: State, u: State, id: Id, now: Time)
    requires Evolves(t, u) && id in t.uploads && WithoutJob(t, id, now)
    ensures WithoutJob(u, id, now)
  {
  }

  lemma InputLostStays(t: State, u: State, id: Id)
    requires Evolves(t, u) && id in t.jobs && InputLost(t, id)
    ensures InputLost(u, id)
  {
  }

  lemma ObjectLawsCompose(s: State, t: State, u: State, id: Id, now: Time)
    requires Evolves(s, t) && Evolves(t, u) && id in s.objects
    requires RedundantLaw(s, t, id, now) && RejectedLaw(s, t, id, now) && EligibleLaw(s, t, id, now)
    requires RedundantLaw(t, u, id, now) && RejectedLaw(t, u, id, now) && EligibleLaw(t, u, id, now)
    ensures RedundantLaw(s, u, id, now) && RejectedLaw(s, u, id, now) && EligibleLaw(s, u, id, now)
  {
    if OnlyDuplicates(t, id, now) {
      DuplicatesStay(t, u, id, now);
    }
    if Unclaimed(t, id, now) {
      UnclaimedStays(t, u, id, now);
    }
    if PastRetention(t, id, now) {
      PastRetentionStays(t, u, id, now);
    }
  }

  lemma UploadLawComposes(s: State, t: State, u: State, id: Id, now: Time)
    requires Evolves(s, t) && Evolves(t, u) && id in s.uploads && UploadLaw(s, t, id, now) && UploadLaw(t, u, id, now)
    ensures UploadLaw(s, u, id, now)
  {
    if WithoutJob(t, id, now) {
      WithoutJobStays(t, u, id, now);
    }
  }

  lemma JobLawComposes(s: State, t: State, u: State, id: Id, now: Time)
    requires Evolves(s, t) && Evolves(t, u) && id in s.jobs && JobLaw(s, t, id, now) && JobLaw(t, u, id, now)
    ensures JobLaw(s, u, id, now)
  {
    if InputLost(t, id) {
      InputLostStays(t, u, id);
    }
  }

  lemma LawsCompose(s: State, t: State, u: State, now: Time)
    requires Evolves(s, t) && Evolves(t, u) && ChangesLawful(s, t, now) && ChangesLawful(t, u, now)
    ensures ChangesLawful(s, u, now)
  {
    forall id | id in s.objects ensures RedundantLaw(s, u, id, now) && RejectedLaw(s, u, id, now) && EligibleLaw(s, u, id, now) {
      ObjectLawsCompose(s, t, u, id, now);
    }
    forall id | id in s.uploads ensures UploadLaw(s, u, id, now) {
      UploadLawComposes(s, t, u, id, now);
    }
    forall id | id in s.jobs ensures JobLaw(s, u, id, now) {
      JobLawComposes(s, t, u, id, now);
    }
  }

  /** Over any run of statements with any batches of candidates: an object newly reported redundant has only duplicates, a newly rejected one
      has nobody who still wants it, a newly eligible one is past its retention; an expired upload was overdue, a reported one has no job; and a
      job changes status only because its lease expired or its input is lost. */
  lemma {:induction false} RunsAreLawful(s: State, run: seq<Statement>, now: Time)
    requires Legal(s, run, now)
    ensures ChangesLawful(s, Execute(s, run, now), now)
    decreases |run|
  {
    if run != [] {
      var t := Exec(s, run[0].phase, run[0].batch, run[0].rolls, now);
      StatementLawful(s, run[0].phase, run[0].batch, run[0].rolls, now);
      StatementEvolves(s, run[0].phase, run[0].batch, run[0].rolls, now);
      RunsAreLawful(t, run[1..], now);
      RunEvolves(t, run[1..], now);
      LawsCompose(s, t, Execute(t, run[1..], now), now);
    }
  }

  // ---- what the statements write -----------------------------------------------------------------------------

  /** A rejected row: its reason tells an expired upload from an abandoned object, and without a date of its own it is kept seven days. */
  lemma RejectionWrites(s: State, batch: set<Id>, now: Time, id: Id)
    requires id in s.objects && id in batch
    ensures var o, t := s.objects[id], RejectOrphans(s, batch, now).objects[id];
            && t.lifecycle.Rejected? && t.updatedAt == now && t.version == o.version + 1
            && t.quarantineReason
               == Some(if exists u | u in s.uploads :: s.uploads[u].org == o.identity.org && s.uploads[u].objectId == id && s.uploads[u].state.UExpired?
                       then "UPLOAD_EXPIRED" else "ORPHANED_PENDING_OBJECT")
            && t.retentionUntil == (if o.retentionUntil.Some? then o.retentionUntil else Some(now + 604_800_000_000))
  {
  }

  /** A redundant row may go at once. */
  lemma RedundancyWrites(s: State, batch: set<Id>, now: Time, id: Id)
    requires id in s.objects && id in batch
    ensures var o, t := s.objects[id], ReportRedundant(s, batch, now).objects[id];
            && t.redundantAt == Some(now) && t.updatedAt == now && t.version == o.version + 1 && t.lifecycle == o.lifecycle
            && t.retentionUntil == (if o.retentionUntil.Some? && o.retentionUntil.value < now then o.retentionUntil else Some(now))
  {
  }

  /** A repaired row shows the counts of its items, and its version grows exactly when it did not before. */
  lemma RepairWrites(s: State, batch: set<Id>, now: Time, id: Id)
    requires id in s.jobs && id in batch
    ensures var j, t := s.jobs[id], RepairDirty(s, batch, now).jobs[id];
            && ShowsCounts(t.counters, s.items, j.org, id) && t.reconciledAt == Some(now)
            && (if ShowsCounts(j.counters, s.items, j.org, id) then t.version == j.version && t.updatedAt == j.updatedAt
                else t.version == j.version + 1 && t.updatedAt == now)
            && t.status == j.status && t.retries == j.retries && t.attempts == j.attempts
  {
    CountShows(s.items, s.jobs[id].org, id);
    if ShowsCounts(s.jobs[id].counters, s.items, s.jobs[id].org, id) {
      SameShown(s.jobs[id].counters, Count(s.items, s.jobs[id].org, id), s.items, s.jobs[id].org, id);
    }
  }

  lemma SameShown(a: Counters, b: Counters, items: ItemTable, org: Org, job: Id)
    requires ShowsCounts(a, items, org, job) && ShowsCounts(b, items, org, job)
    ensures a == b
  {
  }

  /** What the ZIP finaliser does to retention: the root package of a finalised job gets thirty days if it had no date, and what was extracted
      for a job that failed or was cancelled goes after a day at the latest, unless it is available or infected. */
  lemma FinaliserKeeps(o: StoredObject, root: bool, extracted: bool, now: Time)
    ensures var kept := FinalRetention(o, root, extracted, now);
            && (o.identity.kind.ZipUpload? && root ==>
                  kept == (if o.retentionUntil.Some? then o.retentionUntil else Some(now + 2_592_000_000_000)))
            && (o.identity.kind.ExtractedXml? && extracted && !o.lifecycle.Available? && !o.scan.Infected? ==>
                  kept == (if o.retentionUntil.Some? && o.retentionUntil.value < now + 86_400_000_000 then o.retentionUntil
                           else Some(now + 86_400_000_000)))
            && (!o.identity.kind.ZipUpload? && !o.identity.kind.ExtractedXml? ==> kept == o.retentionUntil)
            && (!root && !extracted ==> kept == o.retentionUntil)
            && (o.identity.kind.ExtractedXml? && (o.lifecycle.Available? || o.scan.Infected?) ==> kept == o.retentionUntil)
  {
  }

  /** A job that this update brings to an end, of a ZIP. */
  predicate EndsZipJob(s: State, rows: JobTable, job: Id) {
    && job in s.jobs && job in rows && rows[job].source == ManualZip && rows[job].status != s.jobs[job].status
    && (rows[job].status == Completed || rows[job].status == CompletedWithIssues || rows[job].status == FailedFinal || rows[job].status == Cancelled)
  }

  predicate IsEndedRoot(s: State, rows: JobTable, org: Org, id: Id) {
    exists job | job in rows :: EndsZipJob(s, rows, job) && rows[job].org == org && rows[job].rootObject == Some(id)
  }

  predicate IsEndedInVain(s: State, rows: JobTable, org: Org, id: Id) {
    exists k | k in s.items ::
      && s.items[k].org == org && s.items[k].objectId == Some(id) && EndsZipJob(s, rows, s.items[k].job)
      && rows[s.items[k].job].org == org && (rows[s.items[k].job].status == Cancelled || rows[s.items[k].job].status == FailedFinal)
  }

  /** What any update of jobs does to an object: the package of a ZIP job it ends is kept thirty days unless it had a date; what was extracted
      for one that fails or is cancelled is kept a day at most, unless it is available or infected; and nothing else changes. */
  lemma UpdateRetains(s: State, rows: JobTable, now: Time, id: Id)
    requires id in s.objects
    ensures var o := s.objects[id];
            var t := UpdateJobs(s, rows, now);
            && id in t.objects && t.objects[id] == o.(retentionUntil := t.objects[id].retentionUntil)
            && t.objects[id].retentionUntil ==
                 if o.identity.kind == ZipUpload && IsEndedRoot(s, rows, o.identity.org, id) then
                   (if o.retentionUntil.Some? then o.retentionUntil else Some(now + 2_592_000_000_000))
                 else if && o.identity.kind == ExtractedXml && o.lifecycle != Available && o.scan != Infected
                         && IsEndedInVain(s, rows, o.identity.org, id) then
                   (if o.retentionUntil.Some? && o.retentionUntil.value < now + 86_400_000_000 then o.retentionUntil
                    else Some(now + 86_400_000_000))
                 else o.retentionUntil
  {
    var org := s.objects[id].identity.org;
    var zips := Finalised(s.jobs, rows);
    assert forall job :: job in zips <==> EndsZipJob(s, rows, job);
    assert RootOf(rows, zips, org, id) <==> IsEndedRoot(s, rows, org, id);
    assert ExtractedFrom(s.items, rows, zips, org, id) <==> IsEndedInVain(s, rows, org, id);
    FinaliserKeeps(s.objects[id], RootOf(rows, zips, org, id), ExtractedFrom(s.items, rows, zips, org, id), now);
  }

  // ---- when there is nothing left to do -------------------------------------------------------------------------

  /** A job asks for nothing: its lease is not over, its input is there, and its counters are as new as its items. */
  predicate JobAtRest(s: State, j: Id, now: Time)
    requires j in s.jobs
  {
    && ((s.jobs[j].status.Processing? || s.jobs[j].status.CancelRequested?) && s.jobs[j].leaseExpiresAt.Some? ==>
          s.jobs[j].leaseExpiresAt.value > now)
    && (s.jobs[j].status.AwaitingUpload? || s.jobs[j].status.Queued? || s.jobs[j].status.FailedRetryable? ==> !InputLost(s, j))
    && s.jobs[j].reconciledAt.Some?
    && forall k | k in s.items && s.items[k].org == s.jobs[j].org && s.items[k].job == j ::
         s.items[k].updatedAt <= s.jobs[j].reconciledAt.value
  }

  /** An upload asks for nothing: it is not overdue, and if confirmed with its object kept it has a job, is recent or was reported. */
  predicate UploadAtRest(s: State, u: Id, now: Time)
    requires u in s.uploads
  {
    && (s.uploads[u].state.UPending? || s.uploads[u].state.UReceiving? || s.uploads[u].state.UUploaded? ==> s.uploads[u].expiresAt > now)
    && (s.uploads[u].reportedAt.None? && WithoutJob(s, u, now) ==>
          var lifecycle := s.objects[s.uploads[u].objectId].lifecycle;
          lifecycle.PendingUpload? || lifecycle.Rejected? || lifecycle.Deleted?)
  }

  /** An object asks for nothing: if abandoned it is still wanted, and no report about it is due. */
  predicate ObjectAtRest(s: State, id: Id, now: Time)
    requires id in s.objects
  {
    var o := s.objects[id];
    && (o.lifecycle.PendingUpload? && o.createdAt + 3_600_000_000 <= now ==> Wanted(s, id))
    && (o.lifecycle.Uploaded? ==>
          forall u | u in s.uploads && s.uploads[u].state.UExpired? && s.uploads[u].org == o.identity.org && s.uploads[u].objectId == id ::
            Wanted(s, id))
    && (o.redundantAt.None? && OnlyDuplicates(s, id, now) ==> o.lifecycle.PendingUpload? || o.lifecycle.Deleted?)
    && (o.eligibleAt.None? ==> !PastRetention(s, id, now))
  }

  /** No row asks for a statement any more. */
  predicate AtRest(s: State, now: Time) {
    && (forall j | j in s.jobs :: JobAtRest(s, j, now))
    && (forall u | u in s.uploads :: UploadAtRest(s, u, now))
    && (forall id | id in s.objects :: ObjectAtRest(s, id, now))
  }

  /** Somebody still wants the object: an upload that may come or was confirmed, or a job that has not ended. */
  predicate Wanted(s: State, id: Id)
    requires id in s.objects
  {
    var org := s.objects[id].identity.org;
    || (exists u | u in s.uploads :: s.uploads[u].org == org && s.uploads[u].objectId == id
          && (s.uploads[u].state.UPending? || s.uploads[u].state.UReceiving? || s.uploads[u].state.UUploaded? || s.uploads[u].state.UConfirmed?))
    || (exists j | j in s.jobs :: s.jobs[j].org == org && s.jobs[j].rootObject == Some(id)
          && (s.jobs[j].status.AwaitingUpload? || s.jobs[j].status.Queued? || s.jobs[j].status.Processing?
              || s.jobs[j].status.FailedRetryable? || s.jobs[j].status.CancelRequested?))
  }

  lemma WantedOrOrphan(s: State, id: Id, now: Time)
    requires id in s.objects && !Candidate(s, OrphanObjects, id, now)
    requires (s.objects[id].lifecycle.PendingUpload? && s.objects[id].createdAt + 3_600_000_000 <= now)
          || (s.objects[id].lifecycle.Uploaded? && HasExpiredUpload(s.uploads, s.objects[id].identity.org, id))
    ensures Wanted(s, id)
  {
    var org := s.objects[id].identity.org;
    if HasStandingUpload(s.uploads, org, id) {
      var u :| u in s.uploads && s.uploads[u].org == org && s.uploads[u].objectId == id && (Open(s.uploads[u].state) || s.uploads[u].state.UConfirmed?);
    } else {
      assert HasHoldingJob(s.jobs, org, id);
      var j :| j in s.jobs && s.jobs[j].org == org && s.jobs[j].rootObject == Some(id) && !Terminal(s.jobs[j].status);
    }
  }

  lemma JobRest(s: State, j: Id, now: Time)
    requires Quiescent(s, now) && j in s.jobs
    ensures JobAtRest(s, j, now)
  {
    assert j !in Candidates(s, Leases, now) && j !in Candidates(s, OrphanJobs, now) && j !in Candidates(s, DirtyCounters, now);
    assert !Candidate(s, Leases, j, now) && !Candidate(s, OrphanJobs, j, now) && !Candidate(s, DirtyCounters, j, now);
  }

  lemma UploadRest(s: State, u: Id, now: Time)
    requires Quiescent(s, now) && u in s.uploads
    ensures UploadAtRest(s, u, now)
  {
    assert u !in Candidates(s, Uploads, now) && u !in Candidates(s, JoblessUploads, now);
    assert !Candidate(s, Uploads, u, now) && !Candidate(s, JoblessUploads, u, now);
  }

  lemma ObjectRest(s: State, id: Id, now: Time)
    requires Quiescent(s, now) && id in s.objects
    ensures ObjectAtRest(s, id, now)
  {
    assert id !in Candidates(s, OrphanObjects, now) && id !in Candidates(s, RedundantObjects, now) && id !in Candidates(s, Retention, now);
    if (s.objects[id].lifecycle.PendingUpload? && s.objects[id].createdAt + 3_600_000_000 <= now)
       || (s.objects[id].lifecycle.Uploaded? && HasExpiredUpload(s.uploads, s.objects[id].identity.org, id))
    {
      WantedOrOrphan(s, id, now);
    }
    NotRedundant(s, id, now);
    NotDue(s, id, now);
  }

  lemma NotRedundant(s: State, id: Id, now: Time)
    requires id in s.objects && !Candidate(s, RedundantObjects, id, now)
    ensures s.objects[id].redundantAt.None? && !s.objects[id].lifecycle.PendingUpload? && !s.objects[id].lifecycle.Deleted? ==>
              !OnlyDuplicates(s, id, now)
  {
  }

  lemma NotDue(s: State, id: Id, now: Time)
    requires id in s.objects && !Candidate(s, Retention, id, now)
    ensures s.objects[id].eligibleAt.None? ==> !PastRetention(s, id, now)
  {
    if HasQueuedJob(s.jobs, s.objects[id].identity.org, id) {
      var j :| j in s.jobs && s.jobs[j].org == s.objects[id].identity.org && s.jobs[j].rootObject == Some(id)
            && (Claimed(s.jobs[j].status) || Leased(s.jobs[j].status));
    }
  }

  /** Tables without candidates are at rest: everything the reconciler exists for has been done. */
  lemma QuiescentIsAtRest(s: State, now: Time)
    requires Quiescent(s, now)
    ensures AtRest(s, now)
  {
    forall j | j in s.jobs ensures JobAtRest(s, j, now) {
      JobRest(s, j, now);
    }
    forall u | u in s.uploads ensures UploadAtRest(s, u, now) {
      UploadRest(s, u, now);
    }
    forall id | id in s.objects ensures ObjectAtRest(s, id, now) {
      ObjectRest(s, id, now);
    }
  }

  /** After two passes without a limit or locks, nothing in the tables waits for the reconciler. */
  lemma TwoPassesBringRest(s: State, rolls: map<Id, Jitter>, again: map<Id, Jitter>, now: Time)
    requires ClockCovers(s, now)
    ensures AtRest(FullPass(FullPass(s, rolls, now), again, now), now)
  {
    TwoPassesSuffice(s, rolls, again, now);
    QuiescentIsAtRest(FullPass(FullPass(s, rolls, now), again, now), now);
  }
}
