/** The eight statements of `reconcile_fiscal_ingestion_foundation`. Each selects candidate rows,
    takes a batch of them and updates the batch. Here a statement is a function of the tables and
    of the batch, so that what holds for every batch holds for LIMIT and SKIP LOCKED alike. */
module Reconciler {
  import opened Support
  import opened Jobs
  import opened Items
  import opened Objects

  datatype UploadState = UPending | UReceiving | UUploaded | UConfirmed | UExpired | UFailed | UCancelled

  datatype Upload = Upload(
    org: Org,
    objectId: Id,
    state: UploadState,
    expiresAt: Time,
    confirmedAt: Option<Time>,
    reportedAt: Option<Time>,
    lastErrorCode: Option<string>,
    updatedAt: Time,
    version: int)

  /** The CHECK constraints of an upload that concern the columns above. */
  predicate UploadChecks(u: Upload) {
    (u.state.UConfirmed? <==> u.confirmedAt.Some?) && u.version > 0
  }

  type UploadTable = map<Id, Upload>
  type ObjectTable = map<Id, StoredObject>

  datatype State = State(jobs: JobTable, items: ItemTable, uploads: UploadTable, objects: ObjectTable)

  // ---- the WHERE clauses -------------------------------------------------------------------

  predicate Open(u: UploadState) {
    u.UPending? || u.UReceiving? || u.UUploaded?
  }

  /** 1: an expired lease. */
  predicate LeaseDue(jobs: JobTable, id: Id, now: Time) {
    id in jobs && LeaseExpired(jobs[id], now)
  }

  /** 2: an unfinished upload past its deadline. */
  predicate UploadDue(uploads: UploadTable, id: Id, now: Time) {
    id in uploads && Open(uploads[id].state) && uploads[id].expiresAt <= now
  }

  predicate HasExpiredUpload(uploads: UploadTable, org: Org, oid: Id) {
    exists u | u in uploads :: uploads[u].org == org && uploads[u].objectId == oid && uploads[u].state.UExpired?
  }

  predicate HasStandingUpload(uploads: UploadTable, org: Org, oid: Id) {
    exists u | u in uploads :: uploads[u].org == org && uploads[u].objectId == oid
                            && (Open(uploads[u].state) || uploads[u].state.UConfirmed?)
  }

  /** A job of any non-terminal status on the object. */
  predicate HasHoldingJob(jobs: JobTable, org: Org, oid: Id) {
    exists j | j in jobs :: jobs[j].org == org && jobs[j].rootObject == Some(oid) && !Terminal(jobs[j].status)
  }

  const ORPHAN_GRACE: Time := 60 * MINUTE
  const DUPLICATE_GRACE: Time := 24 * HOUR
  const INVALID_RETENTION: Time := 7 * DAY

  /** 3: an object that no upload and no job stands for any more. */
  predicate OrphanObject(jobs: JobTable, uploads: UploadTable, objects: ObjectTable, id: Id, now: Time) {
    && id in objects
    && var o := objects[id];
       var org := o.identity.org;
       && ((o.lifecycle.PendingUpload? && o.createdAt + ORPHAN_GRACE <= now)
           || (o.lifecycle.Uploaded? && HasExpiredUpload(uploads, org, id)))
       && !HasStandingUpload(uploads, org, id)
       && !HasHoldingJob(jobs, org, id)
  }

  predicate HasJobFor(jobs: JobTable, org: Org, upload: Id, oid: Id) {
    exists j | j in jobs :: jobs[j].org == org && (jobs[j].uploadId == Some(upload) || jobs[j].rootObject == Some(oid))
  }

  /** 4: a confirmed upload that never got a job. */
  predicate Jobless(jobs: JobTable, uploads: UploadTable, objects: ObjectTable, id: Id, now: Time) {
    && id in uploads
    && var u := uploads[id];
       && u.state.UConfirmed? && u.reportedAt.None?
       && u.confirmedAt.Some? && u.confirmedAt.value + ORPHAN_GRACE <= now
       && u.objectId in objects
       && var o := objects[u.objectId];
          && o.identity.org == u.org
          && (o.lifecycle.Uploaded? || o.lifecycle.Quarantined? || o.lifecycle.Available?)
          && !HasJobFor(jobs, u.org, id, u.objectId)
  }

  /** The root object is missing or gone. */
  predicate ObjectGone(objects: ObjectTable, j: Job) {
    || j.rootObject.None? || j.rootObject.value !in objects
    || objects[j.rootObject.value].identity.org != j.org
    || objects[j.rootObject.value].lifecycle.Rejected? || objects[j.rootObject.value].lifecycle.Deleted?
  }

  predicate UploadGone(uploads: UploadTable, j: Job) {
    && j.uploadId.Some?
    && (|| j.uploadId.value !in uploads || uploads[j.uploadId.value].org != j.org
        || var state := uploads[j.uploadId.value].state; state.UExpired? || state.UFailed? || state.UCancelled?)
  }

  /** 5: a waiting job that has lost its object or its upload. */
  predicate OrphanJob(jobs: JobTable, uploads: UploadTable, objects: ObjectTable, id: Id) {
    && id in jobs
    && (jobs[id].status.AwaitingUpload? || Claimed(jobs[id].status))
    && (ObjectGone(objects, jobs[id]) || UploadGone(uploads, jobs[id]))
  }

  /** 6: a job whose counters are marked dirty or whose items are newer than the mark. */
  predicate Dirty(jobs: JobTable, items: ItemTable, id: Id) {
    && id in jobs
    && (jobs[id].reconciledAt.None?
        || exists k | k in items :: items[k].org == jobs[id].org && items[k].job == id && items[k].updatedAt > jobs[id].reconciledAt.value)
  }

  predicate DuplicateItem(i: Item) {
    i.technical.Done? && i.product == Some(Duplicate)
  }

  /** 7: an object all of whose items, at least one, turned out to be duplicates. */
  predicate Redundant(items: ItemTable, objects: ObjectTable, id: Id, now: Time) {
    && id in objects
    && var o := objects[id];
       && (o.lifecycle.Uploaded? || o.lifecycle.Quarantined? || o.lifecycle.Available? || o.lifecycle.Rejected?)
       && o.redundantAt.None?
       && o.createdAt + DUPLICATE_GRACE <= now
       && (exists k | k in items :: items[k].org == o.identity.org && items[k].objectId == Some(id) && DuplicateItem(items[k]))
       && !(exists k | k in items :: items[k].org == o.identity.org && items[k].objectId == Some(id) && !DuplicateItem(items[k]))
  }

  predicate HasQueuedJob(jobs: JobTable, org: Org, oid: Id) {
    exists j | j in jobs :: jobs[j].org == org && jobs[j].rootObject == Some(oid)
                         && (Claimed(jobs[j].status) || Leased(jobs[j].status))
  }

  /** 8: an object past its retention, not on hold and not about to be processed. */
  predicate RetentionDue(jobs: JobTable, objects: ObjectTable, id: Id, now: Time) {
    && id in objects
    && var o := objects[id];
       && !o.lifecycle.Deleted?
       && Reached(o.retentionUntil, now)
       && (o.holdUntil.None? || o.holdUntil.value <= now)
       && o.eligibleAt.None?
       && !HasQueuedJob(jobs, o.identity.org, id)
  }

  // ---- an UPDATE of jobs together with the ZIP finaliser -------------------------------------

  /** The jobs of an update whose trigger fires. */
  function Finalised(jobs: JobTable, rows: JobTable): set<Id> {
    set id | id in rows && id in jobs && Finalises(jobs[id], rows[id])
  }

  function FinishedItems(items: ItemTable, rows: JobTable, zips: set<Id>, now: Time): ItemTable
    requires zips <= rows.Keys
  {
    map k | k in items ::
      if items[k].job in zips && items[k].org == rows[items[k].job].org && !items[k].technical.Done? then
        items[k].(technical := Done, product := Some(InternalError), errorCode := Some(FinalErrorCode(rows[items[k].job])),
                  processedAt := Some(now), updatedAt := now, version := items[k].version + 1)
      else items[k]
  }

  predicate RootOf(rows: JobTable, zips: set<Id>, org: Org, oid: Id)
    requires zips <= rows.Keys
  {
    exists z | z in zips :: rows[z].org == org && rows[z].rootObject == Some(oid)
  }

  /** The object belongs to an item of a job that was finalised without success. */
  predicate ExtractedFrom(items: ItemTable, rows: JobTable, zips: set<Id>, org: Org, oid: Id)
    requires zips <= rows.Keys
  {
    exists k | k in items ::
      && items[k].org == org && items[k].objectId == Some(oid) && items[k].job in zips
      && rows[items[k].job].org == org
      && (rows[items[k].job].status.Cancelled? || rows[items[k].job].status.FailedFinal?)
  }

  function FinalRetention(o: StoredObject, root: bool, extracted: bool, now: Time): Option<Time> {
    if root && o.identity.kind.ZipUpload? then Some(Coalesce(o.retentionUntil, now + 30 * DAY))
    else if extracted && o.identity.kind.ExtractedXml? && !o.lifecycle.Available? && !o.scan.Infected? then
      var day := now + DAY;
      Some(if Coalesce(o.retentionUntil, day) <= day then Coalesce(o.retentionUntil, day) else day)
    else o.retentionUntil
  }

  function RetainedObjects(s: State, rows: JobTable, zips: set<Id>, now: Time): ObjectTable
    requires zips <= rows.Keys
  {
    map id | id in s.objects ::
      s.objects[id].(retentionUntil :=
        FinalRetention(s.objects[id], RootOf(rows, zips, s.objects[id].identity.org, id),
                       ExtractedFrom(s.items, rows, zips, s.objects[id].identity.org, id), now))
  }

  /** One UPDATE of several jobs: `rows` are the rows the statement writes. */
  function UpdateJobs(s: State, rows: JobTable, now: Time): State {
    var zips := Finalised(s.jobs, rows);
    var items := FinishedItems(s.items, rows, zips, now);
    State(
      map id | id in s.jobs ::
        if id in zips then rows[id].(counters := FinalCounters(items, rows[id].org, id), reconciledAt := Some(now))
        else if id in rows then rows[id]
        else s.jobs[id],
      items,
      s.uploads,
      RetainedObjects(s, rows, zips, now))
  }

  // ---- the eight statements --------------------------------------------------------------------

  function RecoverRows(jobs: JobTable, batch: set<Id>, rolls: map<Id, Jitter>, now: Time): JobTable {
    map id | id in batch && LeaseDue(jobs, id, now) ::
      RecoverLease(jobs[id], if id in rolls then rolls[id] else Roll(0, 0.0), now).value
  }

  function RecoverLeases(s: State, batch: set<Id>, rolls: map<Id, Jitter>, now: Time): State {
    UpdateJobs(s, RecoverRows(s.jobs, batch, rolls, now), now)
  }

  function ExpireUploads(s: State, batch: set<Id>, now: Time): State {
    s.(uploads := map id | id in s.uploads ::
      if id in batch then
        s.uploads[id].(state := UExpired, lastErrorCode := Some("UPLOAD_EXPIRED"), updatedAt := now, version := s.uploads[id].version + 1)
      else s.uploads[id])
  }

  function RejectObject(o: StoredObject, expired: bool, now: Time): StoredObject {
    o.(lifecycle := Rejected,
       quarantineReason := Some(if expired then "UPLOAD_EXPIRED" else "ORPHANED_PENDING_OBJECT"),
       retentionUntil := Some(Coalesce(o.retentionUntil, now + INVALID_RETENTION)),
       updatedAt := now, version := o.version + 1)
  }

  function RejectOrphans(s: State, batch: set<Id>, now: Time): State {
    s.(objects := map id | id in s.objects ::
      if id in batch then RejectObject(s.objects[id], HasExpiredUpload(s.uploads, s.objects[id].identity.org, id), now)
      else s.objects[id])
  }

  function ReportJobless(s: State, batch: set<Id>, now: Time): State {
    s.(uploads := map id | id in s.uploads ::
      if id in batch then s.uploads[id].(reportedAt := Some(now), updatedAt := now, version := s.uploads[id].version + 1)
      else s.uploads[id])
  }

  function OrphanRows(s: State, batch: set<Id>, now: Time): JobTable {
    map id | id in batch && OrphanJob(s.jobs, s.uploads, s.objects, id) :: FailOrphan(s.jobs[id], now).value
  }

  function FailOrphans(s: State, batch: set<Id>, now: Time): State {
    UpdateJobs(s, OrphanRows(s, batch, now), now)
  }

  /** The repair bumps the version only of a row whose counters were wrong. */
  function RepairCounters(j: Job, id: Id, items: ItemTable, now: Time): Job {
    var actual := Count(items, j.org, id);
    var changed := j.counters != actual;
    j.(counters := actual, reconciledAt := Some(now),
       updatedAt := if changed then now else j.updatedAt,
       version := if changed then j.version + 1 else j.version)
  }

  function RepairDirty(s: State, batch: set<Id>, now: Time): State {
    s.(jobs := map id | id in s.jobs :: if id in batch then RepairCounters(s.jobs[id], id, s.items, now) else s.jobs[id])
  }

  function ReportRedundant(s: State, batch: set<Id>, now: Time): State {
    s.(objects := map id | id in s.objects ::
      if id in batch then
        var kept := Coalesce(s.objects[id].retentionUntil, now);
        s.objects[id].(redundantAt := Some(now), retentionUntil := Some(if kept <= now then kept else now),
                       updatedAt := now, version := s.objects[id].version + 1)
      else s.objects[id])
  }

  function ReportEligible(s: State, batch: set<Id>, now: Time): State {
    s.(objects := map id | id in s.objects ::
      if id in batch then s.objects[id].(eligibleAt := Some(now), updatedAt := now, version := s.objects[id].version + 1)
      else s.objects[id])
  }
}
