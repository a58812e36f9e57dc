/** Why the cleanup of ZIP objects never meets an `available` one: every writer of stored objects, over whole runs. An object becomes
    available only in the transaction that inserts the CFDI it is the source of, CFDIs are never deleted, and the claimer
    skips every object that has one. */
module Availability {
  import opened Support
  import opened Jobs
  import opened Items
  import opened Objects
  import opened Reconciler
  import ReconcilerRuns
  import ReconcilerSafety
  import ZipCleanup

  /** The workers' and the API's updates of one object. */
  datatype Writer =
    | Upload(bytes: Bytes, at: Time)
    | PassScan(passed: Scan, at: Time)
    | Quarantine(reason: string, verdict: Option<Scan>, until: Time, hold: Option<Time>, at: Time)
    | Discard(reason: string, until: Time, at: Time)
    | Remove(at: Time)
    | Publish(at: Time)

  /** The row an update leaves; `None` when its WHERE does not match. */
  function Written(o: StoredObject, w: Writer): Option<StoredObject> {
    match w
    case Upload(bytes, at) =>
      if o.lifecycle.PendingUpload? then
        Some(o.(lifecycle := Uploaded, bytes := bytes, uploadedAt := Some(at), updatedAt := at, version := o.version + 1))
      else None
    case PassScan(passed, at) =>
      if o.lifecycle.Uploaded? || o.lifecycle.Quarantined? || o.lifecycle.Available? then
        Some(o.(lifecycle := if o.lifecycle.Available? then Available else Quarantined,
                scan := passed, scannedAt := Some(at),
                quarantineReason := if o.lifecycle.Available? then o.quarantineReason else Some("PENDING_CFDI_VALIDATION"),
                updatedAt := at, version := o.version + 1))
      else None
    case Quarantine(reason, verdict, until, hold, at) =>
      Some(o.(lifecycle := Quarantined, scan := Coalesce(verdict, o.scan), scannedAt := if verdict.Some? then Some(at) else o.scannedAt,
              quarantineReason := Some(reason), retentionUntil := Some(until),
              holdUntil := if hold.Some? then hold else o.holdUntil, updatedAt := at, version := o.version + 1))
    case Discard(reason, until, at) =>
      Some(o.(lifecycle := Rejected, quarantineReason := Some(reason), retentionUntil := Some(Coalesce(o.retentionUntil, until)),
              updatedAt := at, version := o.version + 1))
    case Remove(at) =>
      Some(o.(lifecycle := Deleted, deletedAt := Some(at), updatedAt := at, version := o.version + 1))
    case Publish(at) =>
      Some(o.(lifecycle := Available, quarantineReason := None, retentionUntil := None,
              availableAt := Some(Coalesce(o.availableAt, at)), updatedAt := at, version := o.version + 1))
  }

  /** Where a writer can take an object, given that PostgreSQL accepts the row: bytes only arrive before the scan, an available object is never
      discarded, a deleted one never written back, and only a publication makes available, of an object that was scanned. */
  lemma WritersMove(o: StoredObject, w: Writer)
    requires ObjectChecks(o) && Written(o, w).Some? && Accepted(o, Written(o, w).value)
    ensures var row := Written(o, w).value;
            && (row.bytes != o.bytes ==> w.Upload? && o.lifecycle == PendingUpload)
            && (w.Upload? ==> o.lifecycle == PendingUpload && row.lifecycle == Uploaded && row.bytes == w.bytes)
            && (w.PassScan? ==>
                  && row.scan == w.passed && row.scannedAt == Some(w.at)
                  && if o.lifecycle == Available then row.lifecycle == Available && row.quarantineReason == o.quarantineReason
                     else row.lifecycle == Quarantined && row.quarantineReason == Some("PENDING_CFDI_VALIDATION"))
            && (w.Quarantine? ==>
                  && row.lifecycle == Quarantined && row.quarantineReason == Some(w.reason) && row.retentionUntil == Some(w.until)
                  && (o.lifecycle == Uploaded || o.lifecycle == Quarantined || o.lifecycle == Available))
            && (w.Discard? ==>
                  && row.lifecycle == Rejected && row.quarantineReason == Some(w.reason) && o.lifecycle != Available
                  && row.retentionUntil == (if o.retentionUntil.Some? then o.retentionUntil else Some(w.until)))
            && (w.Remove? ==> row.lifecycle == Deleted && row.deletedAt == Some(w.at))
            && (row.lifecycle == Available && o.lifecycle != Available ==> w.Publish? && (o.scan == Clean || o.scan == Bypassed))
            && (w.Publish? ==>
                  && row.lifecycle == Available && row.retentionUntil == None && row.quarantineReason == None
                  && (o.availableAt.Some? ==> row.availableAt == o.availableAt))
            && row.holdUntil == (if w.Quarantine? && w.hold.Some? then w.hold else o.holdUntil)
            && row.cleanupRequestedAt == o.cleanupRequestedAt && row.version == o.version + 1 && row.updatedAt == w.at
  {
  }

  /** The tables, and the objects that are the source of a CFDI. */
  datatype World = World(tables: State, cfdis: set<(Org, Id)>)

  datatype Move =
    | Insert(id: Id, o: StoredObject)
    | Write(id: Id, writer: Writer)
    | ChangeOthers(jobs: JobTable, items: ItemTable, uploads: UploadTable)
    | UpdateRows(rows: JobTable, now: Time)
    | Reconcile(phase: ReconcilerRuns.Phase, batch: set<Id>, rolls: map<Id, Jitter>, now: Time)
    | Cleanup(call: ZipCleanup.Call)

  /** A move that is refused, by a WHERE, a CHECK or the trigger, changes nothing. Publication inserts the CFDI with the update. */
  function Next(w: World, m: Move): World {
    match m
    case Insert(id, o) =>
      if id in w.tables.objects || !o.lifecycle.PendingUpload? || !ObjectChecks(o) then w
      else w.(tables := w.tables.(objects := w.tables.objects[id := o]))
    case Write(id, writer) =>
      if id !in w.tables.objects then w
      else
        var was := w.tables.objects[id];
        var row := Written(was, writer);
        if row.None? || !Accepted(was, row.value) then w
        else World(w.tables.(objects := w.tables.objects[id := row.value]),
                   if writer.Publish? then w.cfdis + {(was.identity.org, id)} else w.cfdis)
    case ChangeOthers(jobs, items, uploads) => w.(tables := State(jobs, items, uploads, w.tables.objects))
    case UpdateRows(rows, now) => w.(tables := UpdateJobs(w.tables, rows, now))
    case Reconcile(phase, batch, rolls, now) =>
      if batch <= ReconcilerRuns.Candidates(w.tables, phase, now)
      then w.(tables := ReconcilerRuns.Exec(w.tables, phase, batch, rolls, now)) else w
    case Cleanup(call) =>
      if call.objects == w.tables.objects && ZipCleanup.Committed(call)
      then w.(tables := w.tables.(objects := ZipCleanup.AfterCall(call))) else w
  }

  function Run(w: World, moves: seq<Move>): World
    decreases |moves|
  {
    if moves == [] then w else Run(Next(w, moves[0]), moves[1..])
  }

  /** Every available object is the source of a CFDI. */
  predicate Sourced(w: World) {
    && ZipCleanup.ObjectsChecked(w.tables.objects)
    && forall id | id in w.tables.objects && w.tables.objects[id].lifecycle.Available? ::
         (w.tables.objects[id].identity.org, id) in w.cfdis
  }

  /** An update that makes nothing available that was not. */
  predicate NothingNew(before: ObjectTable, after: ObjectTable) {
    forall id | id in after && after[id].lifecycle.Available? ::
      id in before && before[id].lifecycle.Available? && after[id].identity == before[id].identity
  }

  lemma UpdateJobsMakesNothingAvailable(s: State, rows: JobTable, now: Time)
    requires ZipCleanup.ObjectsChecked(s.objects)
    ensures NothingNew(s.objects, UpdateJobs(s, rows, now).objects) && ZipCleanup.ObjectsChecked(UpdateJobs(s, rows, now).objects)
  {
    ReconcilerSafety.UpdateJobsKeepsObjects(s, rows, now);
    forall id | id in s.objects ensures UpdateJobs(s, rows, now).objects[id].lifecycle == s.objects[id].lifecycle {
    }
  }

  /** No statement of the reconciler makes an object available. */
  lemma ReconcilerMakesNothingAvailable(s: State, p: ReconcilerRuns.Phase, batch: set<Id>, rolls: map<Id, Jitter>, now: Time)
    requires batch <= ReconcilerRuns.Candidates(s, p, now) && ZipCleanup.ObjectsChecked(s.objects)
    ensures var t := ReconcilerRuns.Exec(s, p, batch, rolls, now);
            NothingNew(s.objects, t.objects) && ZipCleanup.ObjectsChecked(t.objects)
  {
    ReconcilerSafety.ObjectWritesAccepted(s, p, batch, rolls, now);
    match p
    case Leases => UpdateJobsMakesNothingAvailable(s, RecoverRows(s.jobs, batch, rolls, now), now);
    case OrphanJobs => UpdateJobsMakesNothingAvailable(s, OrphanRows(s, batch, now), now);
    case _ =>
  }

  lemma CleanupMakesNothingAvailable(c: ZipCleanup.Call)
    requires ZipCleanup.Committed(c) && ZipCleanup.ObjectsChecked(c.objects)
    ensures NothingNew(c.objects, ZipCleanup.AfterCall(c)) && ZipCleanup.ObjectsChecked(ZipCleanup.AfterCall(c))
  {
    ZipCleanup.ClaimsAreSafe(c.objects, c.ids, c.later, |c.ids|);
    var end := ZipCleanup.SweepTo(c.objects, c.ids, c.later, |c.ids|).value;
    forall id | id in end.objects
      ensures ObjectChecks(end.objects[id]) && (end.objects[id].lifecycle.Available? ==> end.objects[id] == c.objects[id])
    {
      if id in end.claimed {
        var i :| 0 <= i < |end.claimed| && end.claimed[i] == id;
        assert ZipCleanup.FreeWhenHandedOut(c.objects, end, c.ids, c.later, |c.ids|, id);
      }
    }
  }

  /** A writer makes an object available only by publishing it. */
  lemma WriteKeepsSourced(w: World, id: Id, writer: Writer)
    requires Sourced(w)
    ensures Sourced(Next(w, Write(id, writer)))
  {
  }

  lemma NextKeepsSourced(w: World, m: Move)
    requires Sourced(w)
    ensures Sourced(Next(w, m)) && w.cfdis <= Next(w, m).cfdis
  {
    match m
    case Insert(_, _) =>
    case Write(id, writer) => WriteKeepsSourced(w, id, writer);
    case ChangeOthers(_, _, _) =>
    case UpdateRows(rows, now) => UpdateJobsMakesNothingAvailable(w.tables, rows, now);
    case Reconcile(phase, batch, rolls, now) =>
      if batch <= ReconcilerRuns.Candidates(w.tables, phase, now) {
        ReconcilerMakesNothingAvailable(w.tables, phase, batch, rolls, now);
      }
    case Cleanup(call) =>
      if call.objects == w.tables.objects && ZipCleanup.Committed(call) {
        CleanupMakesNothingAvailable(call);
      }
  }

  lemma {:induction false} RunKeepsSourced(w: World, moves: seq<Move>)
    requires Sourced(w)
    ensures Sourced(Run(w, moves)) && w.cfdis <= Run(w, moves).cfdis
    decreases |moves|
  {
    if moves != [] {
      NextKeepsSourced(w, moves[0]);
      RunKeepsSourced(Next(w, moves[0]), moves[1..]);
    }
  }

  /** The cleanup claimer never raises: after any run of these writers, whichever candidates it picks and whatever is admitted while
      it works, as long as its first snapshot sees the CFDIs committed so far. */
  lemma CleanupNeverRaises(w: World, moves: seq<Move>, uploads: UploadTable, first: ZipCleanup.Links, now: Time,
                           ids: seq<Id>, later: seq<ZipCleanup.Snapshot>)
    requires Sourced(w) && Run(w, moves).cfdis <= first.cfdiSources
    ensures !ZipCleanup.Raises(Run(w, moves).tables.objects, uploads, first, now, ids, later)
  {
    RunKeepsSourced(w, moves);
    var objects := Run(w, moves).tables.objects;
    ZipCleanup.CanRaiseIff(objects, uploads, first, now);
    forall id | id in ZipCleanup.Selected(objects, uploads, first, now) ensures !objects[id].lifecycle.Available? {
      assert (objects[id].identity.org, id) !in first.cfdiSources;
    }
  }

  /** And it never hands out the source of a CFDI: once published, over any continuation, no committed call claims the object. */
  lemma PublishedIsNeverCleaned(w: World, moves: seq<Move>, c: ZipCleanup.Call, id: Id)
    requires Sourced(w) && c.objects == Run(w, moves).tables.objects && ZipCleanup.Committed(c)
    requires forall k | 0 <= k < |c.later| :: Run(w, moves).cfdis <= c.later[k].links.cfdiSources
    requires id in c.objects && (c.objects[id].identity.org, id) in w.cfdis
    ensures !ZipCleanup.Hands(c, id)
  {
    RunKeepsSourced(w, moves);
    if ZipCleanup.Hands(c, id) {
      ZipCleanup.HandedOutWasFree(c, id);
      assert false;
    }
  }
}
