/** What every reconciler statement keeps, for any batch of its candidates: the object trigger accepts
    each row it writes, every job keeps its CHECKs and its retry budget, every item its CHECKs, and
    the cached counters stay true. */
module ReconcilerSafety {
  import opened Support
  import opened Jobs
  import opened Items
  import opened Objects
  import opened Reconciler
  import opened ReconcilerRuns
  import JobRuns

  /** A job row with its graceful releases: its CHECKs and its retry budget hold. */
  predicate JobOk(j: Job, releases: nat) {
    JobRuns.Sound(JobRuns.Trace(j, releases, []))
  }

  lemma RecoverOk(j: Job, releases: nat, jitter: Jitter, now: Time)
    requires JobOk(j, releases) && LeaseExpired(j, now)
    ensures JobOk(RecoverLease(j, jitter, now).value, releases)
  {
    JobRuns.StepSound(JobRuns.Trace(j, releases, []), JobRuns.ERecover(jitter), now);
  }

  lemma FailOrphanOk(j: Job, releases: nat, now: Time)
    requires JobOk(j, releases) && FailOrphan(j, now).Some?
    ensures JobOk(FailOrphan(j, now).value, releases)
  {
    JobRuns.StepSound(JobRuns.Trace(j, releases, []), JobRuns.EFailOrphan, now);
  }

  /** Any recount whose parts sum up keeps a row in order. */
  lemma RecountOk(j: Job, releases: nat, counters: Counters, at: Time, updatedAt: Time, version: int)
    requires JobOk(j, releases) && counters.Parts() == counters.total && version >= j.version
    ensures JobOk(j.(counters := counters, reconciledAt := Some(at)), releases)
    ensures JobOk(j.(counters := counters, reconciledAt := Some(at), updatedAt := updatedAt, version := version), releases)
  {
  }

  /** Every stored row satisfies the constraints of its table, and every clean cache is true. `releases` gives
      the graceful releases each job has had. */
  predicate Wellformed(s: State, releases: map<Id, nat>) {
    && (forall id | id in s.jobs :: id in releases && JobOk(s.jobs[id], releases[id]))
    && (forall id | id in s.objects :: ObjectChecks(s.objects[id]))
    && (forall id | id in s.uploads :: UploadChecks(s.uploads[id]))
    && CacheInv(Store(s.jobs, s.items))
  }

  /** Rows an UPDATE may write: sound, and with the counters the job had. */
  predicate SoundRows(s: State, rows: JobTable, releases: map<Id, nat>) {
    && RowsOf(s.jobs, rows)
    && forall id | id in rows :: id in releases && JobOk(rows[id], releases[id])
  }

  lemma FinishedItemsChecked(items: ItemTable, rows: JobTable, zips: set<Id>, now: Time)
    requires AllChecked(items) && zips <= rows.Keys
    ensures AllChecked(FinishedItems(items, rows, zips, now))
  {
    var after := FinishedItems(items, rows, zips, now);
    forall k | k in after ensures ItemChecks(after[k]) {
      assert ItemChecks(items[k]);
    }
  }

  /** The counters the trigger writes for a finalised job are the true ones, and they sum up. */
  lemma FinalCountersTrue(items: ItemTable, rows: JobTable, zips: set<Id>, now: Time, z: Id)
    requires AllChecked(items) && zips <= rows.Keys && z in zips
    ensures var after := FinishedItems(items, rows, zips, now);
            var c := FinalCounters(after, rows[z].org, z);
            c == Count(after, rows[z].org, z) && ShowsCounts(c, after, rows[z].org, z) && c.Parts() == c.total
  {
    var after := FinishedItems(items, rows, zips, now);
    CountShows(after, rows[z].org, z);
    FinishedItemsChecked(items, rows, zips, now);
    PartsSumToTotal(after, rows[z].org, z);
    assert AtStage(after, rows[z].org, z, Pending) == {};
    assert AtStage(after, rows[z].org, z, InProgress) == {};
  }

  lemma OtherCountsSame(items: ItemTable, rows: JobTable, zips: set<Id>, now: Time, org: Org, id: Id)
    requires zips <= rows.Keys && id !in zips
    ensures Count(FinishedItems(items, rows, zips, now), org, id) == Count(items, org, id)
  {
    var after := FinishedItems(items, rows, zips, now);
    assert OfJob(after, org, id) == OfJob(items, org, id);
    SameCount(items, after, org, id);
  }

  lemma UpdatedJobOk(s: State, rows: JobTable, releases: map<Id, nat>, now: Time, id: Id)
    requires AllChecked(s.items) && id in s.jobs && id in releases
    requires id in rows ==> JobOk(rows[id], releases[id])
    requires id !in rows ==> JobOk(s.jobs[id], releases[id])
    ensures JobOk(UpdateJobs(s, rows, now).jobs[id], releases[id])
  {
    var zips := Finalised(s.jobs, rows);
    if id in zips {
      FinalCountersTrue(s.items, rows, zips, now, id);
      RecountOk(rows[id], releases[id], FinalCounters(FinishedItems(s.items, rows, zips, now), rows[id].org, id), now, now, rows[id].version);
    }
  }

  lemma UpdatedCacheTrue(s: State, rows: JobTable, now: Time, id: Id)
    requires CacheInv(Store(s.jobs, s.items)) && RowsOf(s.jobs, rows) && id in s.jobs
    ensures var t := UpdateJobs(s, rows, now);
            t.jobs[id].reconciledAt.Some? ==> Agrees(t.jobs[id], id, t.items)
  {
    var zips := Finalised(s.jobs, rows);
    if id in zips {
      FinalCountersTrue(s.items, rows, zips, now, id);
    } else {
      OtherCountsSame(s.items, rows, zips, now, s.jobs[id].org, id);
    }
  }

  lemma UpdateJobsKeepsJobs(s: State, rows: JobTable, releases: map<Id, nat>, now: Time)
    requires Wellformed(s, releases) && SoundRows(s, rows, releases)
    ensures var t := UpdateJobs(s, rows, now);
            && (forall id | id in t.jobs :: JobOk(t.jobs[id], releases[id]))
            && CacheInv(Store(t.jobs, t.items))
  {
    var t := UpdateJobs(s, rows, now);
    FinishedItemsChecked(s.items, rows, Finalised(s.jobs, rows), now);
    forall id | id in t.jobs ensures JobOk(t.jobs[id], releases[id]) {
      UpdatedJobOk(s, rows, releases, now, id);
    }
    forall id | id in t.jobs && t.jobs[id].reconciledAt.Some? ensures Agrees(t.jobs[id], id, t.items) {
      UpdatedCacheTrue(s, rows, now, id);
    }
  }

  lemma UpdateJobsKeepsObjects(s: State, rows: JobTable, now: Time)
    requires forall id | id in s.objects :: ObjectChecks(s.objects[id])
    ensures forall id | id in s.objects :: Accepted(s.objects[id], UpdateJobs(s, rows, now).objects[id])
  {
  }

  /** Every row of a stored object that a statement writes is one the lifecycle trigger and the CHECKs accept; in
      particular an orphan is rejected only from a state that may be rejected. */
  lemma ObjectWritesAccepted(s: State, p: Phase, batch: set<Id>, rolls: map<Id, Jitter>, now: Time)
    requires batch <= Candidates(s, p, now) && forall id | id in s.objects :: ObjectChecks(s.objects[id])
    ensures var t := Exec(s, p, batch, rolls, now);
            t.objects.Keys == s.objects.Keys && forall id | id in s.objects :: Accepted(s.objects[id], t.objects[id])
  {
    var t := Exec(s, p, batch, rolls, now);
    match p
    case Leases => UpdateJobsKeepsObjects(s, RecoverRows(s.jobs, batch, rolls, now), now);
    case OrphanJobs => UpdateJobsKeepsObjects(s, OrphanRows(s, batch, now), now);
    case OrphanObjects =>
      forall id | id in batch ensures Accepted(s.objects[id], t.objects[id]) {
        assert Candidate(s, p, id, now);
      }
    case _ =>
  }

  lemma UploadWritesChecked(s: State, p: Phase, batch: set<Id>, rolls: map<Id, Jitter>, now: Time)
    requires batch <= Candidates(s, p, now) && forall id | id in s.uploads :: UploadChecks(s.uploads[id])
    ensures var t := Exec(s, p, batch, rolls, now);
            t.uploads.Keys == s.uploads.Keys && forall id | id in s.uploads :: UploadChecks(t.uploads[id])
  {
    if p.Uploads? {
      forall id | id in batch ensures UploadChecks(Exec(s, p, batch, rolls, now).uploads[id]) {
        assert Candidate(s, p, id, now);
      }
    }
  }

  lemma RecoverRowsSound(s: State, batch: set<Id>, rolls: map<Id, Jitter>, releases: map<Id, nat>, now: Time)
    requires Wellformed(s, releases) && batch <= Candidates(s, Leases, now)
    ensures SoundRows(s, RecoverRows(s.jobs, batch, rolls, now), releases)
  {
    var rows := RecoverRows(s.jobs, batch, rolls, now);
    RecoverRowsShape(s, batch, rolls, now);
    forall id | id in rows ensures JobOk(rows[id], releases[id]) {
      RecoverOk(s.jobs[id], releases[id], if id in rolls then rolls[id] else Roll(0, 0.0), now);
    }
  }

  lemma OrphanRowsSound(s: State, batch: set<Id>, releases: map<Id, nat>, now: Time)
    requires Wellformed(s, releases) && batch <= Candidates(s, OrphanJobs, now)
    ensures SoundRows(s, OrphanRows(s, batch, now), releases)
  {
    var rows := OrphanRows(s, batch, now);
    OrphanRowsShape(s, batch, now);
    forall id | id in rows ensures JobOk(rows[id], releases[id]) {
      FailOrphanOk(s.jobs[id], releases[id], now);
    }
  }

  lemma RepairsKeepJobs(s: State, batch: set<Id>, releases: map<Id, nat>, now: Time)
    requires Wellformed(s, releases)
    ensures Wellformed(RepairDirty(s, batch, now), releases)
  {
    var t := RepairDirty(s, batch, now);
    forall id | id in t.jobs ensures JobOk(t.jobs[id], releases[id]) {
      if id in batch {
        RepairedJobOk(s.jobs[id], id, s.items, releases[id], now);
      }
    }
    RepairsKeepCache(s, batch, now);
  }

  lemma RepairedJobOk(j: Job, id: Id, items: ItemTable, releases: nat, now: Time)
    requires AllChecked(items) && JobOk(j, releases)
    ensures JobOk(RepairCounters(j, id, items, now), releases)
  {
    var repaired := RepairCounters(j, id, items, now);
    PartsSumToTotal(items, j.org, id);
    RecountOk(j, releases, Count(items, j.org, id), now, repaired.updatedAt, repaired.version);
  }

  lemma RepairsKeepCache(s: State, batch: set<Id>, now: Time)
    requires CacheInv(Store(s.jobs, s.items))
    ensures CacheInv(Store(RepairDirty(s, batch, now).jobs, s.items))
  {
    var t := RepairDirty(s, batch, now);
    forall id | id in t.jobs && t.jobs[id].reconciledAt.Some? ensures Agrees(t.jobs[id], id, s.items) {
      if id !in batch {
        assert t.jobs[id] == s.jobs[id];
      }
    }
  }

  /** Every statement, with any batch of its candidates, keeps every table well-formed. */
  lemma StatementKeepsWellformed(s: State, p: Phase, batch: set<Id>, rolls: map<Id, Jitter>, releases: map<Id, nat>, now: Time)
    requires Wellformed(s, releases) && batch <= Candidates(s, p, now)
    ensures Wellformed(Exec(s, p, batch, rolls, now), releases)
  {
    ObjectWritesAccepted(s, p, batch, rolls, now);
    UploadWritesChecked(s, p, batch, rolls, now);
    match p
    case Leases =>
      RecoverRowsSound(s, batch, rolls, releases, now);
      UpdateJobsKeepsJobs(s, RecoverRows(s.jobs, batch, rolls, now), releases, now);
    case OrphanJobs =>
      OrphanRowsSound(s, batch, releases, now);
      UpdateJobsKeepsJobs(s, OrphanRows(s, batch, now), releases, now);
    case DirtyCounters => RepairsKeepJobs(s, batch, releases, now);
    case _ =>
  }

  /** So does every run of statements. */
  lemma {:induction false} RunKeepsWellformed(s: State, run: seq<Statement>, releases: map<Id, nat>, now: Time)
    requires Wellformed(s, releases) && Legal(s, run, now)
    ensures Wellformed(Execute(s, run, now), releases)
    decreases |run|
  {
    if run != [] {
      StatementKeepsWellformed(s, run[0].phase, run[0].batch, run[0].rolls, releases, now);
      RunKeepsWellformed(Exec(s, run[0].phase, run[0].batch, run[0].rolls, now), run[1..], releases, now);
    }
  }

  /** After any run of statements every clean job shows, counter by counter, what its items say. */
  lemma RunShowsCounts(s: State, run: seq<Statement>, releases: map<Id, nat>, now: Time, id: Id)
    requires Wellformed(s, releases) && Legal(s, run, now)
    requires id in Execute(s, run, now).jobs && Execute(s, run, now).jobs[id].reconciledAt.Some?
    ensures var t := Execute(s, run, now); ShowsCounts(t.jobs[id].counters, t.items, t.jobs[id].org, id)
  {
    RunKeepsWellformed(s, run, releases, now);
    var t := Execute(s, run, now);
    assert Agrees(Store(t.jobs, t.items).jobs[id], id, t.items);
    CountShows(t.items, t.jobs[id].org, id);
  }

  // ---- what is never taken back --------------------------------------------------------------------

  /** A retention date is never postponed, a report is made once, and location and bytes past the upload stay. */
  predicate ObjectKept(was: StoredObject, is': StoredObject) {
    && (was.retentionUntil.Some? ==> is'.retentionUntil.Some? && is'.retentionUntil.value <= was.retentionUntil.value)
    && (was.redundantAt.Some? ==> is'.redundantAt == was.redundantAt)
    && (was.eligibleAt.Some? ==> is'.eligibleAt == was.eligibleAt)
    && is'.identity == was.identity && is'.bytes == was.bytes && is'.holdUntil == was.holdUntil
  }

  /** An upload that is no longer open keeps its state, and is reported once. */
  predicate UploadKept(was: Upload, is': Upload) {
    && (!Open(was.state) ==> is'.state == was.state)
    && (was.reportedAt.Some? ==> is'.reportedAt == was.reportedAt)
    && is'.org == was.org && is'.objectId == was.objectId && is'.confirmedAt == was.confirmedAt
  }

  predicate Kept(s: State, t: State) {
    && t.objects.Keys == s.objects.Keys && (forall id | id in s.objects :: ObjectKept(s.objects[id], t.objects[id]))
    && t.uploads.Keys == s.uploads.Keys && (forall id | id in s.uploads :: UploadKept(s.uploads[id], t.uploads[id]))
  }

  lemma UpdateJobsKept(s: State, rows: JobTable, now: Time)
    ensures Kept(s, UpdateJobs(s, rows, now))
  {
    forall id | id in s.objects ensures ObjectKept(s.objects[id], UpdateJobs(s, rows, now).objects[id]) {
    }
  }

  lemma StatementKeeps(s: State, p: Phase, batch: set<Id>, rolls: map<Id, Jitter>, now: Time)
    requires batch <= Candidates(s, p, now)
    ensures Kept(s, Exec(s, p, batch, rolls, now))
  {
    match p
    case Leases => UpdateJobsKept(s, RecoverRows(s.jobs, batch, rolls, now), now);
    case OrphanJobs => UpdateJobsKept(s, OrphanRows(s, batch, now), now);
    case _ =>
      forall id | id in batch ensures Candidate(s, p, id, now) {
      }
  }

  lemma KeptTwice(s: State, t: State, u: State)
    requires Kept(s, t) && Kept(t, u)
    ensures Kept(s, u)
  {
    forall id | id in s.objects ensures ObjectKept(s.objects[id], u.objects[id]) {
      assert ObjectKept(s.objects[id], t.objects[id]) && ObjectKept(t.objects[id], u.objects[id]);
    }
    forall id | id in s.uploads ensures UploadKept(s.uploads[id], u.uploads[id]) {
      assert UploadKept(s.uploads[id], t.uploads[id]) && UploadKept(t.uploads[id], u.uploads[id]);
    }
  }

  /** Over any run of statements no retention date is postponed, no report is made twice and no closed upload is opened. */
  lemma {:induction false} NothingIsTakenBack(s: State, run: seq<Statement>, now: Time)
    requires Legal(s, run, now)
    ensures Kept(s, Execute(s, run, now))
    decreases |run|
  {
    if run != [] {
      var t := Exec(s, run[0].phase, run[0].batch, run[0].rolls, now);
      StatementKeeps(s, run[0].phase, run[0].batch, run[0].rolls, now);
      NothingIsTakenBack(t, run[1..], now);
      KeptTwice(s, t, Execute(t, run[1..], now));
    }
  }

  /** The set-based UPDATE of one row is the single-row update with its trigger. */
  lemma OneRowUpdate(s: State, id: Id, row: Job, now: Time)
    requires id in s.jobs && row.org == s.jobs[id].org
    ensures var t := UpdateJobs(s, map[id := row], now);
            Store(t.jobs, t.items) == UpdateJob(Store(s.jobs, s.items), id, row, now)
  {
    OneRowFinalised(s, id, row);
    if Finalises(s.jobs[id], row) {
      OneRowItems(s, id, row, now);
      OneRowFinal(s, id, row, now);
    } else {
      PlainUpdate(s, map[id := row], now);
      assert UpdateJobs(s, map[id := row], now).jobs == s.jobs[id := row];
    }
  }

  lemma OneRowFinal(s: State, id: Id, row: Job, now: Time)
    requires id in s.jobs && Finalised(s.jobs, map[id := row]) == {id} && Finalises(s.jobs[id], row)
    requires FinishedItems(s.items, map[id := row], {id}, now) == FinishItems(s.items, row.org, id, FinalErrorCode(row), now)
    ensures var t := UpdateJobs(s, map[id := row], now);
            Store(t.jobs, t.items) == UpdateJob(Store(s.jobs, s.items), id, row, now)
  {
    assert UpdateJobs(s, map[id := row], now).jobs == UpdateJob(Store(s.jobs, s.items), id, row, now).jobs;
  }

  lemma OneRowFinalised(s: State, id: Id, row: Job)
    requires id in s.jobs
    ensures Finalised(s.jobs, map[id := row]) == if Finalises(s.jobs[id], row) then {id} else {}
  {
  }

  lemma OneRowItems(s: State, id: Id, row: Job, now: Time)
    requires id in s.jobs && row.org == s.jobs[id].org
    ensures FinishedItems(s.items, map[id := row], {id}, now) == FinishItems(s.items, row.org, id, FinalErrorCode(row), now)
  {
  }
}
