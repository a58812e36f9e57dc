/** `claim_zip_cleanup`: candidates are chosen and locked in one snapshot, then each is checked again
    in a fresh snapshot of its own before it is rejected and handed out. What other clients do to jobs,
    items, CFDIs and incidents in between is unconstrained. */
module ZipCleanup {
  import opened Support
  import opened Jobs
  import opened Items
  import opened Objects
  import opened Reconciler
  import opened FiscalStore

  /** What one statement sees of the rows that may still use an object. */
  datatype Links = Links(jobs: JobTable, items: ItemTable, cfdiSources: set<(Org, Id)>, openIncidents: set<(Org, Id)>)

  /** A fresh snapshot and the clock when it is taken. */
  datatype Snapshot = Snapshot(links: Links, at: Time)

  predicate ItemOf(items: ItemTable, org: Org, job: Id, oid: Id) {
    exists k | k in items :: items[k].org == org && items[k].job == job && items[k].objectId == Some(oid)
  }

  /** A job of any non-terminal status has the object as its root or in one of its items. */
  predicate InActiveJob(l: Links, org: Org, oid: Id) {
    exists j | j in l.jobs :: l.jobs[j].org == org && !Terminal(l.jobs[j].status)
                           && (l.jobs[j].rootObject == Some(oid) || ItemOf(l.items, org, j, oid))
  }

  predicate Free(l: Links, org: Org, oid: Id) {
    !InActiveJob(l, org, oid) && (org, oid) !in l.cfdiSources && (org, oid) !in l.openIncidents
  }

  predicate AwaitingBytes(uploads: UploadTable, org: Org, oid: Id, now: Time) {
    exists u | u in uploads :: uploads[u].org == org && uploads[u].objectId == oid && Open(uploads[u].state) && uploads[u].expiresAt > now
  }

  const STALE_OBJECT: Time := 31 * DAY
  const CLAIM_PAUSE: Time := 5 * MINUTE

  predicate Due(o: StoredObject, now: Time) {
    && (o.identity.kind.ZipUpload? || o.identity.kind.ExtractedXml?)
    && !o.lifecycle.Deleted?
    && (Reached(o.retentionUntil, now)
        || ((o.lifecycle.PendingUpload? || o.lifecycle.Rejected?) && o.createdAt + STALE_OBJECT < now))
    && (o.holdUntil.None? || o.holdUntil.value <= now)
    && !o.scan.Infected?
    && (o.cleanupRequestedAt.None? || o.cleanupRequestedAt.value + CLAIM_PAUSE < now)
  }

  function Selected(objects: ObjectTable, uploads: UploadTable, l: Links, now: Time): set<Id> {
    set id | id in objects && Due(objects[id], now)
          && Free(l, objects[id].identity.org, id) && !AwaitingBytes(uploads, objects[id].identity.org, id, now)
  }

  /** `ORDER BY retention_until NULLS LAST, id` */
  function CleanupKeys(objects: ObjectTable): map<Id, SortKey> {
    map id | id in objects ::
      if objects[id].retentionUntil.Some? then SortKey(0, objects[id].retentionUntil.value) else SortKey(1, 0)
  }

  function HandOut(o: StoredObject, at: Time): StoredObject {
    o.(cleanupRequestedAt := Some(at), lifecycle := Rejected, updatedAt := at, version := o.version + 1)
  }

  // ---- the loop as a function --------------------------------------------------------------

  datatype Sweep = Sweep(objects: ObjectTable, claimed: seq<Id>)

  /** One iteration: the object is checked in its own snapshot, then rejected and handed out. */
  function SweepOne(s: Sweep, id: Id, seen: Snapshot): (r: Option<Sweep>)
    requires id in s.objects
    ensures r.Some? ==> r.value.objects.Keys == s.objects.Keys
  {
    var o := s.objects[id];
    if !Free(seen.links, o.identity.org, id) then Some(s)
    else if !Accepted(o, HandOut(o, seen.at)) then None
    else Some(Sweep(s.objects[id := HandOut(o, seen.at)], s.claimed + [id]))
  }

  /** The first `n` iterations over the locked candidates `ids`; `None` when an update raises. */
  function SweepTo(objects: ObjectTable, ids: seq<Id>, later: seq<Snapshot>, n: nat): (r: Option<Sweep>)
    requires n <= |ids| <= |later| && forall k | 0 <= k < |ids| :: ids[k] in objects
    ensures r.Some? ==> r.value.objects.Keys == objects.Keys
  {
    if n == 0 then Some(Sweep(objects, []))
    else
      var before := SweepTo(objects, ids, later, n - 1);
      if before.None? then None
      else
        SweepOne(before.value, ids[n - 1], later[n - 1])
  }

  /** Candidates chosen by the first statement. */
  predicate ChosenFrom(objects: ObjectTable, uploads: UploadTable, l: Links, now: Time, ids: seq<Id>) {
    Distinct(ids) && forall k | 0 <= k < |ids| :: ids[k] in Selected(objects, uploads, l, now)
  }

  predicate ObjectsChecked(objects: ObjectTable) {
    forall id | id in objects :: ObjectChecks(objects[id])
  }

  // ---- a call on the tables ----------------------------------------------------------------------

  /** Nobody uses the object any more: no job of its tenant that has not ended has it as root or in an item, it is the source of no CFDI
      and no open incident is about it. */
  predicate Unused(l: Links, org: Org, oid: Id) {
    && (forall j | j in l.jobs && l.jobs[j].org == org && NotEnded(l.jobs[j]) ::
          l.jobs[j].rootObject != Some(oid)
          && forall k | k in l.items && l.items[k].org == org && l.items[k].job == j :: l.items[k].objectId != Some(oid))
    && (org, oid) !in l.cfdiSources
    && (org, oid) !in l.openIncidents
  }

  predicate NotEnded(j: Job) {
    j.status == AwaitingUpload || j.status == Queued || j.status == Processing || j.status == FailedRetryable || j.status == CancelRequested
  }

  /** An object whose time has come: of a ZIP, not infected, past its hold and its retention, or 31 days old and never used, and not
      handed out within the last five minutes. */
  predicate TimeIsUp(o: StoredObject, now: Time) {
    && (o.identity.kind == ZipUpload || o.identity.kind == ExtractedXml)
    && o.lifecycle != Deleted && o.scan != Infected
    && (o.holdUntil.Some? ==> o.holdUntil.value <= now)
    && (o.cleanupRequestedAt.Some? ==> o.cleanupRequestedAt.value + 300_000_000 < now)
    && ((o.retentionUntil.Some? && o.retentionUntil.value <= now)
        || ((o.lifecycle == PendingUpload || o.lifecycle == Rejected) && o.createdAt + 2_678_400_000_000 < now))
  }

  /** What the first statement looks for. */
  predicate Cleanable(objects: ObjectTable, uploads: UploadTable, l: Links, now: Time, id: Id) {
    && id in objects && TimeIsUp(objects[id], now) && Unused(l, objects[id].identity.org, id)
    && forall u | u in uploads && uploads[u].org == objects[id].identity.org && uploads[u].objectId == id ::
         (uploads[u].state == UPending || uploads[u].state == UReceiving || uploads[u].state == UUploaded) ==> uploads[u].expiresAt <= now
  }

  lemma FreeIsUnused(l: Links, org: Org, oid: Id)
    ensures Free(l, org, oid) <==> Unused(l, org, oid)
  {
    if Unused(l, org, oid) {
      assert !InActiveJob(l, org, oid);
    }
    forall j | Free(l, org, oid) && j in l.jobs && l.jobs[j].org == org && NotEnded(l.jobs[j])
      ensures l.jobs[j].rootObject != Some(oid)
           && forall k | k in l.items && l.items[k].org == org && l.items[k].job == j :: l.items[k].objectId != Some(oid)
    {
      assert !InActiveJob(l, org, oid) && !ItemOf(l.items, org, j, oid);
    }
  }

  lemma SelectedIsCleanable(objects: ObjectTable, uploads: UploadTable, l: Links, now: Time, id: Id)
    ensures id in Selected(objects, uploads, l, now) <==> Cleanable(objects, uploads, l, now, id)
  {
    if id in objects {
      FreeIsUnused(l, objects[id].identity.org, id);
    }
  }

  /** Earlier retention goes first and no retention goes last; the id breaks ties. */
  predicate GoesBefore(objects: ObjectTable, x: Id, y: Id)
    requires x in objects && y in objects
  {
    var a, b := objects[x].retentionUntil, objects[y].retentionUntil;
    if a == b then x < y else a.Some? && (b.None? || a.value < b.value)
  }

  /** The choice of the first statement: at most a hundred, in order, all that are cleanable and not held unless a hundred go before. */
  predicate ChoiceLaw(objects: ObjectTable, uploads: UploadTable, l: Links, now: Time, held: set<Id>, ids: seq<Id>) {
    && |ids| <= 100
    && (forall k | 0 <= k < |ids| :: ids[k] !in held && Cleanable(objects, uploads, l, now, ids[k]))
    && (forall j, k | 0 <= j < k < |ids| :: GoesBefore(objects, ids[j], ids[k]))
    && (forall id | id in objects && Cleanable(objects, uploads, l, now, id) && id !in held && id !in ids ::
          |ids| == 100 && forall k | 0 <= k < 100 :: GoesBefore(objects, ids[k], id))
  }

  /** The updates of a committed call: a chosen object is handed out exactly if nobody uses it in the snapshot of its own update; it is
      then rejected and stamped, and nothing else changes. */
  predicate HandOutLaw(before: ObjectTable, after: ObjectTable, ids: seq<Id>, later: seq<Snapshot>, claimed: seq<Id>) {
    && after.Keys == before.Keys && |ids| <= |later|
    && (forall i, j | 0 <= i < j < |claimed| :: claimed[i] != claimed[j])
    && (forall id | id in claimed :: id in ids)
    && (forall k | 0 <= k < |ids| :: ids[k] in before && ids[k] in after && HandOutOf(before, after, ids[k], later[k], claimed))
    && (forall id | id in before && id !in claimed :: after[id] == before[id])
  }

  predicate HandOutOf(before: ObjectTable, after: ObjectTable, id: Id, seen: Snapshot, claimed: seq<Id>)
    requires id in before && id in after
  {
    && (id in claimed <==> Unused(seen.links, before[id].identity.org, id))
    && (id in claimed ==>
          after[id] == before[id].(lifecycle := Rejected, cleanupRequestedAt := Some(seen.at), updatedAt := seen.at, version := before[id].version + 1))
  }

  lemma KeysGoBefore(objects: ObjectTable, x: Id, y: Id)
    requires x in objects && y in objects && x != y && SortsBefore(CleanupKeys(objects), x, y)
    ensures GoesBefore(objects, x, y)
  {
  }

  lemma LeftOutGoesLater(objects: ObjectTable, chosen: set<Id>, ids: seq<Id>, id: Id)
    requires chosen <= objects.Keys && id in chosen && id !in ids && |ids| <= LIMIT
    requires IsBatch(chosen, CleanupKeys(objects), LIMIT, Elements(ids))
    ensures |ids| == 100 && forall k | 0 <= k < 100 :: ids[k] in objects && GoesBefore(objects, ids[k], id)
  {
    assert id !in Elements(ids);
    if |chosen| <= 100 {
      WholeBatch(chosen, Elements(ids));
    }
    ElementsCount(ids);
    forall k | 0 <= k < |ids| ensures ids[k] in objects && GoesBefore(objects, ids[k], id) {
      assert ids[k] in Elements(ids);
      KeysGoBefore(objects, ids[k], id);
    }
  }

  lemma ChosenByColumns(objects: ObjectTable, uploads: UploadTable, l: Links, now: Time, held: set<Id>, ids: seq<Id>)
    requires ChosenFrom(objects, uploads, l, now, ids) && |ids| <= LIMIT
    requires IsBatch(Selected(objects, uploads, l, now) - held, CleanupKeys(objects), LIMIT, Elements(ids))
    requires forall i, j | 0 <= i < j < |ids| :: ids[i] in objects && ids[j] in objects && SortsBefore(CleanupKeys(objects), ids[i], ids[j])
    ensures ChoiceLaw(objects, uploads, l, now, held, ids)
  {
    var chosen := Selected(objects, uploads, l, now) - held;
    forall k | 0 <= k < |ids| ensures ids[k] !in held && Cleanable(objects, uploads, l, now, ids[k]) {
      assert ids[k] in Elements(ids);
      SelectedIsCleanable(objects, uploads, l, now, ids[k]);
    }
    forall j, k | 0 <= j < k < |ids| ensures GoesBefore(objects, ids[j], ids[k]) {
      KeysGoBefore(objects, ids[j], ids[k]);
    }
    forall id | id in objects && Cleanable(objects, uploads, l, now, id) && id !in held && id !in ids
      ensures |ids| == 100 && forall k | 0 <= k < 100 :: GoesBefore(objects, ids[k], id)
    {
      SelectedIsCleanable(objects, uploads, l, now, id);
      LeftOutGoesLater(objects, chosen, ids, id);
    }
  }

  lemma {:induction false} ElementsCount(ids: seq<Id>)
    ensures |Elements(ids)| <= |ids|
  {
    if ids != [] {
      var n := |ids| - 1;
      ElementsCount(ids[..n]);
      assert Elements(ids) == Elements(ids[..n]) + {ids[n]};
    }
  }

  class ObjectStore {
    var objects: ObjectTable

    /** `held` are the object rows locked by others; `later[k]` is what the k-th update sees. */
    method ClaimZipCleanup(uploads: UploadTable, first: Links, now: Time, held: set<Id>, later: seq<Snapshot>)
      returns (r: Option<seq<Id>>, ghost ids: seq<Id>)
      requires |later| >= LIMIT
      modifies this
      ensures ChosenFrom(old(objects), uploads, first, now, ids)
      ensures IsBatch(Selected(old(objects), uploads, first, now) - held, CleanupKeys(old(objects)), LIMIT, Elements(ids)) && |ids| <= LIMIT
      ensures var end := SweepTo(old(objects), ids, later, |ids|);
              if end.Some? then r == Some(end.value.claimed) && objects == end.value.objects
              else r.None? && objects == old(objects)
      ensures ChoiceLaw(old(objects), uploads, first, now, held, ids)
      ensures if r.Some? then HandOutLaw(old(objects), objects, ids, later, r.value) else objects == old(objects)
      ensures ObjectsChecked(old(objects)) ==>
                (r.None? <==> exists k :: 0 <= k < |ids| && ids[k] in old(objects) && old(objects)[ids[k]].lifecycle == Available
                                       && Unused(later[k].links, old(objects)[ids[k]].identity.org, ids[k]))
    {
      ghost var before := objects;
      var candidates := ChooseCandidates(uploads, first, now, held);
      ids := candidates;
      r := SweepAll(candidates, later);
      if r.Some? {
        CommittedByColumns(before, ids, later, |ids|);
        assert ids[..|ids|] == ids;
      }
      if ObjectsChecked(before) {
        RaisesByColumns(before, uploads, first, now, ids, later);
      }
    }

    /** The first statement: the candidates in order, locked. */
    method ChooseCandidates(uploads: UploadTable, first: Links, now: Time, held: set<Id>) returns (ids: seq<Id>)
      ensures ChosenFrom(objects, uploads, first, now, ids) && |ids| <= LIMIT
      ensures IsBatch(Selected(objects, uploads, first, now) - held, CleanupKeys(objects), LIMIT, Elements(ids))
      ensures ChoiceLaw(objects, uploads, first, now, held, ids)
    {
      ids := FirstBatch(Selected(objects, uploads, first, now) - held, CleanupKeys(objects), LIMIT);
      forall k | 0 <= k < |ids| ensures ids[k] in Selected(objects, uploads, first, now) {
        assert ids[k] in Elements(ids);
      }
      ChosenByColumns(objects, uploads, first, now, held, ids);
    }

    /** The loop over them. */
    method SweepAll(ids: seq<Id>, later: seq<Snapshot>) returns (r: Option<seq<Id>>)
      requires |ids| <= |later| && forall k | 0 <= k < |ids| :: ids[k] in objects
      modifies this
      ensures var end := SweepTo(old(objects), ids, later, |ids|);
              if end.Some? then r == Some(end.value.claimed) && objects == end.value.objects
              else r.None? && objects == old(objects)
    {
      var start := objects;
      var claimed: seq<Id> := [];
      for n := 0 to |ids|
        invariant SweepTo(start, ids, later, n) == Some(Sweep(objects, claimed))
      {
        var raised;
        raised, claimed := HandOutNext(ids[n], later[n], claimed);
        if raised {
          objects := start;
          RaisesForGood(start, ids, later, n + 1, |ids|);
          return None;
        }
      }
      r := Some(claimed);
    }

    /** The body of the loop; an update that the trigger refuses raises. */
    method HandOutNext(id: Id, seen: Snapshot, before: seq<Id>) returns (raised: bool, claimed: seq<Id>)
      requires id in objects
      modifies this
      ensures raised <==> SweepOne(Sweep(old(objects), before), id, seen).None?
      ensures !raised ==> SweepOne(Sweep(old(objects), before), id, seen) == Some(Sweep(objects, claimed))
    {
      claimed, raised := before, false;
      if Free(seen.links, objects[id].identity.org, id) {
        var handed := HandOut(objects[id], seen.at);
        if !Accepted(objects[id], handed) {
          return true, before;
        }
        objects := objects[id := handed];
        claimed := claimed + [id];
      }
    }
  }

  /** An exception ends the whole call. */
  lemma {:induction false} RaisesForGood(objects: ObjectTable, ids: seq<Id>, later: seq<Snapshot>, n: nat, m: nat)
    requires n <= m <= |ids| <= |later| && forall k | 0 <= k < |ids| :: ids[k] in objects
    requires SweepTo(objects, ids, later, n).None?
    ensures SweepTo(objects, ids, later, m).None?
    decreases m
  {
    if n < m {
      RaisesForGood(objects, ids, later, n, m - 1);
    }
  }

  // ---- what a committed claim promises -----------------------------------------------------------

  /** At the update that handed it out, the object was free in the snapshot of that very update. */
  predicate FreeWhenHandedOut(objects: ObjectTable, end: Sweep, ids: seq<Id>, later: seq<Snapshot>, n: nat, id: Id)
    requires n <= |ids| <= |later|
  {
    exists k | 0 <= k < n ::
      && ids[k] == id && id in objects && id in end.objects
      && Unused(later[k].links, objects[id].identity.org, id)
      && end.objects[id] == HandOut(objects[id], later[k].at)
      && Accepted(objects[id], end.objects[id])
  }

  /** Claims are safe across the two snapshots: whatever was admitted after the candidates were chosen, every object of a
      committed call had no active job, no CFDI and no open incident when it was rejected; every other object is
      untouched, and no object is handed out twice by one call. */
  lemma {:induction false} ClaimsAreSafe(objects: ObjectTable, ids: seq<Id>, later: seq<Snapshot>, n: nat)
    requires n <= |ids| <= |later| && Distinct(ids) && forall k | 0 <= k < |ids| :: ids[k] in objects
    requires SweepTo(objects, ids, later, n).Some?
    ensures var end := SweepTo(objects, ids, later, n).value;
            && Distinct(end.claimed)
            && (forall c | 0 <= c < |end.claimed| :: FreeWhenHandedOut(objects, end, ids, later, n, end.claimed[c]))
            && (forall id | id in objects && id !in end.claimed :: end.objects[id] == objects[id])
            && (forall k | n <= k < |ids| :: ids[k] !in end.claimed)
  {
    if n > 0 {
      ClaimsAreSafe(objects, ids, later, n - 1);
      var before := SweepTo(objects, ids, later, n - 1).value;
      var end := SweepTo(objects, ids, later, n).value;
      var id := ids[n - 1];
      assert before.objects[id] == objects[id];
      SweepOneEffect(before, id, later[n - 1]);
      forall c | 0 <= c < |end.claimed| ensures FreeWhenHandedOut(objects, end, ids, later, n, end.claimed[c]) {
        if c < |before.claimed| {
          StillHandedOut(objects, before, end, ids, later, n, before.claimed[c]);
        }
      }
    }
  }

  lemma OneByColumns(s: Sweep, id: Id, seen: Snapshot)
    requires id in s.objects && id !in s.claimed && SweepOne(s, id, seen).Some?
    ensures var end := SweepOne(s, id, seen).value;
            && HandOutOf(s.objects, end.objects, id, seen, end.claimed)
            && end.claimed == (if Unused(seen.links, s.objects[id].identity.org, id) then s.claimed + [id] else s.claimed)
            && forall other | other in s.objects && other != id :: end.objects[other] == s.objects[other]
  {
    FreeIsUnused(seen.links, s.objects[id].identity.org, id);
  }

  /** One more update in a table that obeyed the law so far. */
  lemma LawGrows(start: ObjectTable, s: Sweep, ids: seq<Id>, later: seq<Snapshot>, id: Id)
    requires HandOutLaw(start, s.objects, ids, later, s.claimed) && |ids| < |later| && id in start && id !in ids
    requires SweepOne(s, id, later[|ids|]).Some?
    ensures var end := SweepOne(s, id, later[|ids|]).value; HandOutLaw(start, end.objects, ids + [id], later, end.claimed)
  {
    var end := SweepOne(s, id, later[|ids|]).value;
    OneByColumns(s, id, later[|ids|]);
    forall k | 0 <= k < |ids| + 1
      ensures var x := (ids + [id])[k]; x in start && x in end.objects && HandOutOf(start, end.objects, x, later[k], end.claimed)
    {
      assert k < |ids| ==> HandOutOf(start, s.objects, ids[k], later[k], s.claimed);
    }
  }

  lemma LawReaches(start: ObjectTable, s: Sweep, ids: seq<Id>, later: seq<Snapshot>, n: nat)
    requires 0 < n <= |ids| <= |later| && Distinct(ids) && ids[n - 1] in start
    requires HandOutLaw(start, s.objects, ids[..n - 1], later, s.claimed) && SweepOne(s, ids[n - 1], later[n - 1]).Some?
    ensures var end := SweepOne(s, ids[n - 1], later[n - 1]).value; HandOutLaw(start, end.objects, ids[..n], later, end.claimed)
  {
    assert ids[n - 1] !in ids[..n - 1];
    LawGrows(start, s, ids[..n - 1], later, ids[n - 1]);
    assert ids[..n] == ids[..n - 1] + [ids[n - 1]];
  }

  lemma LawAtStart(objects: ObjectTable, later: seq<Snapshot>)
    ensures HandOutLaw(objects, objects, [], later, [])
  {
  }

  /** And a committed call hands out all it can: every candidate nobody uses when its turn comes. */
  lemma {:induction false} CommittedByColumns(objects: ObjectTable, ids: seq<Id>, later: seq<Snapshot>, n: nat)
    requires n <= |ids| <= |later| && Distinct(ids) && forall k | 0 <= k < |ids| :: ids[k] in objects
    requires SweepTo(objects, ids, later, n).Some?
    ensures var end := SweepTo(objects, ids, later, n).value; HandOutLaw(objects, end.objects, ids[..n], later, end.claimed)
  {
    if n == 0 {
      assert ids[..0] == [];
      LawAtStart(objects, later);
    } else {
      CommittedByColumns(objects, ids, later, n - 1);
      LawReaches(objects, SweepTo(objects, ids, later, n - 1).value, ids, later, n);
    }
  }

  lemma RaisesByColumns(objects: ObjectTable, uploads: UploadTable, first: Links, now: Time, ids: seq<Id>, later: seq<Snapshot>)
    requires |ids| <= |later| && ObjectsChecked(objects) && ChosenFrom(objects, uploads, first, now, ids)
    ensures SweepTo(objects, ids, later, |ids|).None?
       <==> exists k :: 0 <= k < |ids| && ids[k] in objects && objects[ids[k]].lifecycle == Available
                     && Unused(later[k].links, objects[ids[k]].identity.org, ids[k])
  {
    RaisesExactlyOnAvailable(objects, uploads, first, now, ids, later, |ids|);
    assert forall k | 0 <= k < |ids| :: ids[k] in Selected(objects, uploads, first, now);
  }

  lemma SweepOneEffect(s: Sweep, id: Id, seen: Snapshot)
    requires id in s.objects && SweepOne(s, id, seen).Some?
    ensures var end := SweepOne(s, id, seen).value;
            || end == s
            || (end == Sweep(s.objects[id := HandOut(s.objects[id], seen.at)], s.claimed + [id])
                && Unused(seen.links, s.objects[id].identity.org, id) && Accepted(s.objects[id], HandOut(s.objects[id], seen.at)))
  {
    FreeIsUnused(seen.links, s.objects[id].identity.org, id);
  }

  lemma StillHandedOut(objects: ObjectTable, before: Sweep, end: Sweep, ids: seq<Id>, later: seq<Snapshot>, n: nat, id: Id)
    requires 0 < n <= |ids| <= |later| && FreeWhenHandedOut(objects, before, ids, later, n - 1, id)
    requires id in end.objects && end.objects[id] == before.objects[id]
    ensures FreeWhenHandedOut(objects, end, ids, later, n, id)
  {
  }

  /** Exactly when a call fails: it raises, and hands out nothing at all, if and only if some chosen object is
      `available` and is still free when its turn comes, because the lifecycle trigger refuses to reject it. */
  lemma {:induction false} RaisesExactlyOnAvailable(objects: ObjectTable, uploads: UploadTable, first: Links, now: Time,
                                                    ids: seq<Id>, later: seq<Snapshot>, n: nat)
    requires n <= |ids| <= |later| && ObjectsChecked(objects) && ChosenFrom(objects, uploads, first, now, ids)
    ensures SweepTo(objects, ids, later, n).None?
       <==> exists k | 0 <= k < n :: objects[ids[k]].lifecycle == Available && Unused(later[k].links, objects[ids[k]].identity.org, ids[k])
  {
    if n > 0 {
      RaisesExactlyOnAvailable(objects, uploads, first, now, ids, later, n - 1);
      if SweepTo(objects, ids, later, n - 1).Some? {
        NotYetTouched(objects, ids, later, n);
        var id := ids[n - 1];
        assert id in Selected(objects, uploads, first, now);
        RefusedExactlyWhenAvailable(objects[id], now, later[n - 1].at);
        FreeIsUnused(later[n - 1].links, objects[id].identity.org, id);
      }
    }
  }

  /** The call picks these candidates, sees these snapshots and raises. */
  predicate Raises(objects: ObjectTable, uploads: UploadTable, first: Links, now: Time, ids: seq<Id>, later: seq<Snapshot>) {
    |ids| <= |later| && ChosenFrom(objects, uploads, first, now, ids) && SweepTo(objects, ids, later, |ids|).None?
  }

  /** What a caller can check before the call: it can raise at all if and only if some `available` object meets the
      conditions of the first statement. Otherwise no choice of candidates and nothing admitted later makes it raise. */
  lemma CanRaiseIff(objects: ObjectTable, uploads: UploadTable, first: Links, now: Time)
    requires ObjectsChecked(objects)
    ensures (exists ids: seq<Id>, later: seq<Snapshot> :: Raises(objects, uploads, first, now, ids, later))
       <==> exists id | id in objects :: objects[id].lifecycle == Available && Cleanable(objects, uploads, first, now, id)
  {
    if ids: seq<Id>, later: seq<Snapshot> :| Raises(objects, uploads, first, now, ids, later) {
      RaisesExactlyOnAvailable(objects, uploads, first, now, ids, later, |ids|);
      var k :| 0 <= k < |ids| && objects[ids[k]].lifecycle.Available?;
      SelectedIsCleanable(objects, uploads, first, now, ids[k]);
    }
    if id :| id in objects && objects[id].lifecycle == Available && Cleanable(objects, uploads, first, now, id) {
      var ids, later := [id], [Snapshot(first, now)];
      SelectedIsCleanable(objects, uploads, first, now, id);
      RaisesExactlyOnAvailable(objects, uploads, first, now, ids, later, 1);
      assert Unused(later[0].links, objects[ids[0]].identity.org, ids[0]);
      assert Raises(objects, uploads, first, now, ids, later);
    }
  }

  /** The CHECKs and the trigger alone do not exclude it: an extracted object that became available with a retention
      date, and has no CFDI, aborts the call once the date has passed. */
  lemma UnpublishedAvailableAborts(o: StoredObject, now: Time)
    requires o.identity.kind.ExtractedXml? && o.lifecycle.Quarantined? && ObjectChecks(o)
    requires o.scan.Clean? && o.holdUntil.None? && o.cleanupRequestedAt.None? && Reached(o.retentionUntil, now)
    ensures var published := o.(lifecycle := Available, quarantineReason := None, availableAt := Some(now));
            && History([o, published])
            && Raises(map[1 := published], map[], Links(map[], map[], {}, {}), now, [1], [Snapshot(Links(map[], map[], {}, {}), now)])
  {
    var published := o.(lifecycle := Available, quarantineReason := None, availableAt := Some(now));
    var none := Links(map[], map[], {}, {});
    var objects: ObjectTable := map[1 := published];
    assert Accepted(o, published);
    assert 1 in Selected(objects, map[], none, now);
    RaisesExactlyOnAvailable(objects, map[], none, now, [1], [Snapshot(none, now)], 1);
    assert objects[[1][0]].lifecycle.Available? && Unused(none, published.identity.org, 1);
  }

  lemma NotYetTouched(objects: ObjectTable, ids: seq<Id>, later: seq<Snapshot>, n: nat)
    requires 0 < n <= |ids| <= |later| && Distinct(ids) && forall k | 0 <= k < |ids| :: ids[k] in objects
    requires SweepTo(objects, ids, later, n - 1).Some?
    ensures SweepTo(objects, ids, later, n - 1).value.objects[ids[n - 1]] == objects[ids[n - 1]]
  {
    ClaimsAreSafe(objects, ids, later, n - 1);
  }

  lemma RefusedExactlyWhenAvailable(o: StoredObject, now: Time, at: Time)
    requires ObjectChecks(o) && Due(o, now)
    ensures Accepted(o, HandOut(o, at)) <==> !o.lifecycle.Available?
  {
  }

  // ---- the pause between two claims of one object --------------------------------------------------

  /** A committed call: the table it started from, its clock, its candidates and what they saw. */
  datatype Call = Call(objects: ObjectTable, uploads: UploadTable, first: Links, now: Time, ids: seq<Id>, later: seq<Snapshot>)

  predicate Committed(c: Call) {
    && |c.ids| <= |c.later| && ChosenFrom(c.objects, c.uploads, c.first, c.now, c.ids)
    && SweepTo(c.objects, c.ids, c.later, |c.ids|).Some?
  }

  function AfterCall(c: Call): ObjectTable
    requires Committed(c)
  {
    SweepTo(c.objects, c.ids, c.later, |c.ids|).value.objects
  }

  predicate Hands(c: Call, id: Id)
    requires Committed(c)
  {
    id in SweepTo(c.objects, c.ids, c.later, |c.ids|).value.claimed
  }

  /** What a committed call hands out was free in the snapshot of the update that handed it out. */
  lemma HandedOutWasFree(c: Call, id: Id)
    requires Committed(c) && Hands(c, id)
    ensures id in c.objects && exists k | 0 <= k < |c.ids| :: c.ids[k] == id && Unused(c.later[k].links, c.objects[id].identity.org, id)
  {
    ClaimsAreSafe(c.objects, c.ids, c.later, |c.ids|);
    var end := SweepTo(c.objects, c.ids, c.later, |c.ids|).value;
    var i :| 0 <= i < |end.claimed| && end.claimed[i] == id;
    assert FreeWhenHandedOut(c.objects, end, c.ids, c.later, |c.ids|, id);
  }

  /** Nothing else takes back a cleanup stamp. */
  predicate KeepsStamps(before: ObjectTable, after: ObjectTable) {
    forall id | id in before && before[id].cleanupRequestedAt.Some? ::
      id in after && after[id].cleanupRequestedAt.Some? && after[id].cleanupRequestedAt.value >= before[id].cleanupRequestedAt.value
  }

  lemma CallKeepsStamps(c: Call)
    requires Committed(c) && Forward(c)
    ensures KeepsStamps(c.objects, AfterCall(c))
  {
    ClaimsAreSafe(c.objects, c.ids, c.later, |c.ids|);
    var end := SweepTo(c.objects, c.ids, c.later, |c.ids|).value;
    forall id | id in c.objects && c.objects[id].cleanupRequestedAt.Some?
      ensures end.objects[id].cleanupRequestedAt.Some? && end.objects[id].cleanupRequestedAt.value >= c.objects[id].cleanupRequestedAt.value
    {
      if id in end.claimed {
        var i :| 0 <= i < |end.claimed| && end.claimed[i] == id;
        assert FreeWhenHandedOut(c.objects, end, c.ids, c.later, |c.ids|, id);
        assert Due(c.objects[id], c.now);
      }
    }
  }

  /** The clock does not run back during a call. */
  predicate Forward(c: Call) {
    forall k | 0 <= k < |c.later| :: c.later[k].at >= c.now
  }

  /** The calls of a run, with any other statements in between. */
  predicate CallRun(calls: seq<Call>) {
    && (forall i | 0 <= i < |calls| :: Committed(calls[i]) && Forward(calls[i]))
    && (forall i | 0 <= i < |calls| - 1 :: KeepsStamps(AfterCall(calls[i]), calls[i + 1].objects))
  }

  lemma StampsCompose(a: ObjectTable, b: ObjectTable, c: ObjectTable)
    requires KeepsStamps(a, b) && KeepsStamps(b, c)
    ensures KeepsStamps(a, c)
  {
  }

  lemma StampsReach(start: ObjectTable, c: Call, next: ObjectTable)
    requires Committed(c) && Forward(c) && KeepsStamps(start, c.objects) && KeepsStamps(AfterCall(c), next)
    ensures KeepsStamps(start, next)
  {
    CallKeepsStamps(c);
    StampsCompose(start, c.objects, AfterCall(c));
    StampsCompose(start, AfterCall(c), next);
  }

  lemma {:induction false} StampsSurvive(calls: seq<Call>, i: nat, j: nat)
    requires CallRun(calls) && i < j < |calls|
    ensures KeepsStamps(AfterCall(calls[i]), calls[j].objects)
    decreases j - i
  {
    if i + 1 < j {
      StampsSurvive(calls, i, j - 1);
      StampsReach(AfterCall(calls[i]), calls[j - 1], calls[j].objects);
    }
  }

  /** Over any run, an object handed out by one call is not handed out again until more than five minutes after the
      moment it was handed out. */
  lemma HandedOutFiveMinutesApart(calls: seq<Call>, i: nat, j: nat, id: Id)
    requires CallRun(calls) && i < j < |calls| && Hands(calls[i], id) && Hands(calls[j], id)
    ensures id in AfterCall(calls[i]) && AfterCall(calls[i])[id].cleanupRequestedAt.Some?
    ensures AfterCall(calls[i])[id].cleanupRequestedAt.value >= calls[i].now
    ensures calls[j].now > AfterCall(calls[i])[id].cleanupRequestedAt.value + 300_000_000
  {
    var c, d := calls[i], calls[j];
    ClaimsAreSafe(c.objects, c.ids, c.later, |c.ids|);
    ClaimsAreSafe(d.objects, d.ids, d.later, |d.ids|);
    var end := SweepTo(c.objects, c.ids, c.later, |c.ids|).value;
    assert FreeWhenHandedOut(c.objects, end, c.ids, c.later, |c.ids|, id);
    StampsSurvive(calls, i, j);
    var last := SweepTo(d.objects, d.ids, d.later, |d.ids|).value;
    assert FreeWhenHandedOut(d.objects, last, d.ids, d.later, |d.ids|, id);
    assert id in Selected(d.objects, d.uploads, d.first, d.now);
  }
}
