/** Whole reconciler runs at a frozen clock: every batch is paid for out of a finite amount of
    work, so repeated passes come to rest whatever the batches; and when the batch limit does not
    bind, two passes are enough and one is not. */
module ReconcilerRuns {
  import opened Support
  import opened Jobs
  import opened Items
  import opened Objects
  import opened Reconciler

  datatype Phase = Leases | Uploads | OrphanObjects | JoblessUploads | OrphanJobs | DirtyCounters | RedundantObjects | Retention

  const ORDER: seq<Phase> :=
    [Leases, Uploads, OrphanObjects, JoblessUploads, OrphanJobs, DirtyCounters, RedundantObjects, Retention]

  predicate Candidate(s: State, p: Phase, id: Id, now: Time) {
    match p
    case Leases => LeaseDue(s.jobs, id, now)
    case Uploads => UploadDue(s.uploads, id, now)
    case OrphanObjects => OrphanObject(s.jobs, s.uploads, s.objects, id, now)
    case JoblessUploads => Jobless(s.jobs, s.uploads, s.objects, id, now)
    case OrphanJobs => OrphanJob(s.jobs, s.uploads, s.objects, id)
    case DirtyCounters => Dirty(s.jobs, s.items, id)
    case RedundantObjects => Redundant(s.items, s.objects, id, now)
    case Retention => RetentionDue(s.jobs, s.objects, id, now)
  }

  /** The ids of the table a statement updates. */
  function Rows(s: State, p: Phase): set<Id> {
    match p
    case Leases => s.jobs.Keys
    case Uploads => s.uploads.Keys
    case OrphanObjects => s.objects.Keys
    case JoblessUploads => s.uploads.Keys
    case OrphanJobs => s.jobs.Keys
    case DirtyCounters => s.jobs.Keys
    case RedundantObjects => s.objects.Keys
    case Retention => s.objects.Keys
  }

  function Candidates(s: State, p: Phase, now: Time): (ids: set<Id>)
    ensures forall id :: id in ids <==> Candidate(s, p, id, now)
  {
    set id | id in Rows(s, p) && Candidate(s, p, id, now)
  }

  function Exec(s: State, p: Phase, batch: set<Id>, rolls: map<Id, Jitter>, now: Time): State {
    match p
    case Leases => RecoverLeases(s, batch, rolls, now)
    case Uploads => ExpireUploads(s, batch, now)
    case OrphanObjects => RejectOrphans(s, batch, now)
    case JoblessUploads => ReportJobless(s, batch, now)
    case OrphanJobs => FailOrphans(s, batch, now)
    case DirtyCounters => RepairDirty(s, batch, now)
    case RedundantObjects => ReportRedundant(s, batch, now)
    case Retention => ReportEligible(s, batch, now)
  }

  /** No item was written after `now`: what a clock that never runs backwards gives. */
  predicate ClockCovers(s: State, now: Time) {
    forall k | k in s.items :: s.items[k].updatedAt <= now
  }

  predicate Quiescent(s: State, now: Time) {
    forall p: Phase :: Candidates(s, p, now) == {}
  }

  // ---- what an UPDATE of jobs leaves alone ----------------------------------------------------

  predicate SameScope(a: Job, b: Job) {
    a.org == b.org && a.source == b.source && a.uploadId == b.uploadId && a.rootObject == b.rootObject
  }

  predicate RowsOf(jobs: JobTable, rows: JobTable) {
    forall id | id in rows :: id in jobs && SameScope(jobs[id], rows[id])
                           && rows[id].counters == jobs[id].counters && rows[id].reconciledAt == jobs[id].reconciledAt
  }

  lemma UpdateJobsRows(s: State, rows: JobTable, now: Time)
    requires RowsOf(s.jobs, rows)
    ensures var t := UpdateJobs(s, rows, now);
            && t.jobs.Keys == s.jobs.Keys && t.items.Keys == s.items.Keys && t.objects.Keys == s.objects.Keys && t.uploads == s.uploads
            && (forall id | id in s.jobs :: SameScope(s.jobs[id], t.jobs[id]) && t.jobs[id].status == (if id in rows then rows[id] else s.jobs[id]).status
                                         && t.jobs[id].leaseExpiresAt == (if id in rows then rows[id] else s.jobs[id]).leaseExpiresAt)
            && (forall id | id in s.objects :: t.objects[id] == s.objects[id].(retentionUntil := t.objects[id].retentionUntil))
  {
  }

  lemma UpdateJobsItems(s: State, rows: JobTable, now: Time)
    requires RowsOf(s.jobs, rows) && ClockCovers(s, now)
    ensures ClockCovers(UpdateJobs(s, rows, now), now)
    ensures forall id | Dirty(UpdateJobs(s, rows, now).jobs, UpdateJobs(s, rows, now).items, id) :: Dirty(s.jobs, s.items, id)
  {
    var t := UpdateJobs(s, rows, now);
    var zips := Finalised(s.jobs, rows);
    forall k | k in s.items ensures t.items[k].updatedAt <= now {
    }
    forall id | Dirty(t.jobs, t.items, id) ensures Dirty(s.jobs, s.items, id) {
      if id !in zips && t.jobs[id].reconciledAt.Some? {
        var k :| k in t.items && t.items[k].org == t.jobs[id].org && t.items[k].job == id
              && t.items[k].updatedAt > t.jobs[id].reconciledAt.value;
        assert t.items[k] == s.items[k];
      }
    }
  }

  lemma RecoverRowsShape(s: State, batch: set<Id>, rolls: map<Id, Jitter>, now: Time)
    requires batch <= Candidates(s, Leases, now)
    ensures var rows := RecoverRows(s.jobs, batch, rolls, now);
            RowsOf(s.jobs, rows) && rows.Keys == batch
            && forall id | id in rows :: !Leased(rows[id].status) && (Terminal(s.jobs[id].status) ==> Terminal(rows[id].status))
  {
    var rows := RecoverRows(s.jobs, batch, rolls, now);
    forall id | id in batch ensures id in rows && !Leased(rows[id].status) && SameScope(s.jobs[id], rows[id]) {
      assert LeaseDue(s.jobs, id, now);
    }
  }

  lemma OrphanRowsShape(s: State, batch: set<Id>, now: Time)
    requires batch <= Candidates(s, OrphanJobs, now)
    ensures var rows := OrphanRows(s, batch, now);
            RowsOf(s.jobs, rows) && rows.Keys == batch
            && forall id | id in rows :: Terminal(rows[id].status) && !Leased(rows[id].status)
  {
  }

  // ---- the work left -----------------------------------------------------------------------------

  /** Eight pools of rows; each statement takes its batch out of one of them and adds to none. */
  function Pool(s: State, p: Phase): set<Id> {
    match p
    case Leases => set id | id in s.jobs && Leased(s.jobs[id].status)
    case Uploads => set id | id in s.uploads && Open(s.uploads[id].state)
    case OrphanObjects => set id | id in s.objects && (s.objects[id].lifecycle.PendingUpload? || s.objects[id].lifecycle.Uploaded?)
    case JoblessUploads => set id | id in s.uploads && s.uploads[id].reportedAt.None?
    case OrphanJobs => set id | id in s.jobs && !Terminal(s.jobs[id].status)
    case DirtyCounters => set id | id in s.jobs && Dirty(s.jobs, s.items, id)
    case RedundantObjects => set id | id in s.objects && s.objects[id].redundantAt.None?
    case Retention => set id | id in s.objects && s.objects[id].eligibleAt.None?
  }

  function Work(s: State): nat {
    |Pool(s, Leases)| + |Pool(s, Uploads)| + |Pool(s, OrphanObjects)| + |Pool(s, JoblessUploads)|
    + |Pool(s, OrphanJobs)| + |Pool(s, DirtyCounters)| + |Pool(s, RedundantObjects)| + |Pool(s, Retention)|
  }

  lemma PoolsShrink(s: State, p: Phase, batch: set<Id>, rolls: map<Id, Jitter>, now: Time, q: Phase)
    requires batch <= Candidates(s, p, now) && ClockCovers(s, now)
    ensures Pool(Exec(s, p, batch, rolls, now), q) <= Pool(s, q) - (if p == q then batch else {})
  {
    var t := Exec(s, p, batch, rolls, now);
    match p
    case Leases =>
      var rows := RecoverRows(s.jobs, batch, rolls, now);
      RecoverRowsShape(s, batch, rolls, now);
      UpdateJobsRows(s, rows, now);
      UpdateJobsItems(s, rows, now);
    case OrphanJobs =>
      var rows := OrphanRows(s, batch, now);
      OrphanRowsShape(s, batch, now);
      UpdateJobsRows(s, rows, now);
      UpdateJobsItems(s, rows, now);
    case DirtyCounters =>
      forall id | id in t.jobs && Dirty(t.jobs, t.items, id) ensures id !in batch && Dirty(s.jobs, s.items, id) {
      }
    case Uploads =>
    case OrphanObjects =>
    case JoblessUploads =>
    case RedundantObjects =>
    case Retention =>
  }

  lemma ClockStillCovers(s: State, p: Phase, batch: set<Id>, rolls: map<Id, Jitter>, now: Time)
    requires batch <= Candidates(s, p, now) && ClockCovers(s, now)
    ensures ClockCovers(Exec(s, p, batch, rolls, now), now)
  {
    match p
    case Leases =>
      RecoverRowsShape(s, batch, rolls, now);
      UpdateJobsItems(s, RecoverRows(s.jobs, batch, rolls, now), now);
    case OrphanJobs =>
      OrphanRowsShape(s, batch, now);
      UpdateJobsItems(s, OrphanRows(s, batch, now), now);
    case _ =>
  }

  lemma BatchInPool(s: State, p: Phase, batch: set<Id>, now: Time)
    requires batch <= Candidates(s, p, now)
    ensures batch <= Pool(s, p)
  {
    forall id | id in batch ensures id in Pool(s, p) {
      assert Candidate(s, p, id, now);
    }
  }

  /** Every row a statement updates is taken out of the work left, and nothing is put back. */
  lemma StatementSpends(s: State, p: Phase, batch: set<Id>, rolls: map<Id, Jitter>, now: Time)
    requires batch <= Candidates(s, p, now) && ClockCovers(s, now)
    ensures Work(Exec(s, p, batch, rolls, now)) + |batch| <= Work(s)
  {
    var t := Exec(s, p, batch, rolls, now);
    forall q: Phase ensures |Pool(t, q)| + (if p == q then |batch| else 0) <= |Pool(s, q)| {
      PoolsShrink(s, p, batch, rolls, now, q);
      if p == q {
        BatchInPool(s, p, batch, now);
        StrictSubsetCard(Pool(t, q), Pool(s, q), batch);
      } else {
        SubsetCard(Pool(t, q), Pool(s, q));
      }
    }
  }

  // ---- repeated passes come to rest -----------------------------------------------------------------

  datatype Statement = Statement(phase: Phase, batch: set<Id>, rolls: map<Id, Jitter>)

  function Execute(s: State, run: seq<Statement>, now: Time): State
    decreases |run|
  {
    if run == [] then s else Execute(Exec(s, run[0].phase, run[0].batch, run[0].rolls, now), run[1..], now)
  }

  /** Every batch is taken from the candidates of its moment, whatever the limit and the locks held by others. */
  predicate Legal(s: State, run: seq<Statement>, now: Time)
    decreases |run|
  {
    run != [] ==>
      && run[0].batch <= Candidates(s, run[0].phase, now)
      && Legal(Exec(s, run[0].phase, run[0].batch, run[0].rolls, now), run[1..], now)
  }

  /** A statement with candidates updates at least one: the limit is positive and nobody else holds the rows. */
  predicate Eager(s: State, run: seq<Statement>, now: Time)
    decreases |run|
  {
    run != [] ==>
      && (Candidates(s, run[0].phase, now) != {} ==> run[0].batch != {})
      && Eager(Exec(s, run[0].phase, run[0].batch, run[0].rolls, now), run[1..], now)
  }

  function Updates(run: seq<Statement>): nat {
    if run == [] then 0 else |run[0].batch| + Updates(run[1..])
  }

  /** At a frozen clock, any number of statements in any order with any batches update at most as many rows
      as there is work at the start. */
  lemma {:induction false} UpdatesAreBounded(s: State, run: seq<Statement>, now: Time)
    requires ClockCovers(s, now) && Legal(s, run, now)
    ensures Updates(run) + Work(Execute(s, run, now)) <= Work(s) && ClockCovers(Execute(s, run, now), now)
    decreases |run|
  {
    if run != [] {
      var st := run[0];
      StatementSpends(s, st.phase, st.batch, st.rolls, now);
      ClockStillCovers(s, st.phase, st.batch, st.rolls, now);
      UpdatesAreBounded(Exec(s, st.phase, st.batch, st.rolls, now), run[1..], now);
    }
  }

  /** One call of the reconciler: the eight statements in order. */
  predicate IsPass(run: seq<Statement>) {
    |run| == |ORDER| && forall n | 0 <= n < |ORDER| :: run[n].phase == ORDER[n]
  }

  lemma EmptyBatchChangesNothing(s: State, p: Phase, rolls: map<Id, Jitter>, now: Time)
    ensures Exec(s, p, {}, rolls, now) == s
  {
    match p
    case Leases => NoRowsChangeNothing(s, RecoverRows(s.jobs, {}, rolls, now), now);
    case OrphanJobs => NoRowsChangeNothing(s, OrphanRows(s, {}, now), now);
    case _ =>
  }

  /** Without a finalised ZIP job an UPDATE of jobs is just that. */
  lemma PlainUpdate(s: State, rows: JobTable, now: Time)
    requires forall id | id in rows && id in s.jobs :: !Finalises(s.jobs[id], rows[id])
    ensures UpdateJobs(s, rows, now) == s.(jobs := map id | id in s.jobs :: if id in rows then rows[id] else s.jobs[id])
  {
    var t := UpdateJobs(s, rows, now);
    assert Finalised(s.jobs, rows) == {};
    assert t.items == s.items;
    NothingRetained(s, rows, now);
  }

  lemma NothingRetained(s: State, rows: JobTable, now: Time)
    ensures RetainedObjects(s, rows, {}, now) == s.objects
  {
    forall id | id in s.objects ensures RetainedObjects(s, rows, {}, now)[id] == s.objects[id] {
    }
  }

  lemma NoRowsChangeNothing(s: State, rows: JobTable, now: Time)
    requires forall id :: id !in rows
    ensures UpdateJobs(s, rows, now) == s
  {
    PlainUpdate(s, rows, now);
    assert UpdateJobs(s, rows, now).jobs == s.jobs;
  }

  /** Eager statements that update nothing had nothing to update. */
  lemma {:induction false} NoUpdatesNoCandidates(s: State, run: seq<Statement>, now: Time, n: nat)
    requires Legal(s, run, now) && Eager(s, run, now) && Updates(run) == 0 && n < |run|
    ensures Candidates(s, run[n].phase, now) == {}
    decreases |run|
  {
    var st := run[0];
    assert |st.batch| == 0;
    assert st.batch == {};
    EmptyBatchChangesNothing(s, st.phase, st.rolls, now);
    if n > 0 {
      NoUpdatesNoCandidates(s, run[1..], now, n - 1);
    }
  }

  /** A pass over tables that are not at rest updates something. */
  lemma PassMakesProgress(s: State, run: seq<Statement>, now: Time)
    requires IsPass(run) && Legal(s, run, now) && Eager(s, run, now)
    requires !Quiescent(s, now)
    ensures Updates(run) > 0
  {
    if Updates(run) == 0 {
      forall p: Phase ensures Candidates(s, p, now) == {} {
        var n := PhaseIndex(p);
        NoUpdatesNoCandidates(s, run, now, n);
      }
    }
  }

  lemma PhaseIndex(p: Phase) returns (n: nat)
    ensures n < |ORDER| && ORDER[n] == p
  {
    n := match p
         case Leases => 0
         case Uploads => 1
         case OrphanObjects => 2
         case JoblessUploads => 3
         case OrphanJobs => 4
         case DirtyCounters => 5
         case RedundantObjects => 6
         case Retention => 7;
  }

  function AfterPasses(s: State, passes: seq<seq<Statement>>, now: Time): State
    decreases |passes|
  {
    if passes == [] then s else AfterPasses(Execute(s, passes[0], now), passes[1..], now)
  }

  /** Consecutive passes, each started on tables that are not yet at rest. */
  predicate BusyPasses(s: State, passes: seq<seq<Statement>>, now: Time)
    decreases |passes|
  {
    passes != [] ==>
      && IsPass(passes[0]) && Legal(s, passes[0], now) && Eager(s, passes[0], now) && !Quiescent(s, now)
      && BusyPasses(Execute(s, passes[0], now), passes[1..], now)
  }

  /** Repeating the reconciler at a frozen clock terminates, even when the batch limit binds: the number of
      passes that find anything to do is at most the work at the start. */
  lemma {:induction false} PassesTerminate(s: State, passes: seq<seq<Statement>>, now: Time)
    requires ClockCovers(s, now) && BusyPasses(s, passes, now)
    ensures |passes| + Work(AfterPasses(s, passes, now)) <= Work(s)
    decreases |passes|
  {
    if passes != [] {
      PassMakesProgress(s, passes[0], now);
      UpdatesAreBounded(s, passes[0], now);
      PassesTerminate(Execute(s, passes[0], now), passes[1..], now);
    }
  }

  // ---- two passes without a limit -----------------------------------------------------------------------

  /** A statement whose batch is every candidate. */
  function Full(s: State, p: Phase, rolls: map<Id, Jitter>, now: Time): State {
    Exec(s, p, Candidates(s, p, now), rolls, now)
  }

  function FullFrom(s: State, n: nat, rolls: map<Id, Jitter>, now: Time): State
    requires n <= |ORDER|
    decreases |ORDER| - n
  {
    if n == |ORDER| then s else FullFrom(Full(s, ORDER[n], rolls, now), n + 1, rolls, now)
  }

  /** A whole pass when the limit does not bind and no row is locked by others. */
  function FullPass(s: State, rolls: map<Id, Jitter>, now: Time): State {
    FullFrom(s, 0, rolls, now)
  }

  ghost predicate Idle(s: State, p: Phase, now: Time) {
    forall id :: !Candidate(s, p, id, now)
  }

  /** A full statement leaves itself nothing to do. */
  lemma FullIdles(s: State, p: Phase, rolls: map<Id, Jitter>, now: Time)
    requires ClockCovers(s, now)
    ensures Idle(Full(s, p, rolls, now), p, now)
  {
    var batch := Candidates(s, p, now);
    var t := Full(s, p, rolls, now);
    forall id ensures !Candidate(t, p, id, now) {
      match p
      case Leases =>
        RecoverRowsShape(s, batch, rolls, now);
        UpdateJobsRows(s, RecoverRows(s.jobs, batch, rolls, now), now);
        assert id in batch <==> LeaseDue(s.jobs, id, now);
      case OrphanJobs =>
        OrphanJobIdles(s, batch, now, id);
      case _ =>
        assert id in batch <==> Candidate(s, p, id, now);
    }
  }

  lemma OrphanJobIdles(s: State, batch: set<Id>, now: Time, id: Id)
    requires batch == Candidates(s, OrphanJobs, now)
    ensures var t := FailOrphans(s, batch, now); !OrphanJob(t.jobs, t.uploads, t.objects, id)
  {
    var t := FailOrphans(s, batch, now);
    OrphanRowsShape(s, batch, now);
    UpdateJobsRows(s, OrphanRows(s, batch, now), now);
    assert id in batch <==> OrphanJob(s.jobs, s.uploads, s.objects, id);
    if id in s.jobs {
      assert ObjectGone(t.objects, t.jobs[id]) <==> ObjectGone(s.objects, s.jobs[id]);
      assert UploadGone(t.uploads, t.jobs[id]) <==> UploadGone(s.uploads, s.jobs[id]);
    }
  }

  /** `q` runs before `p` in a pass and `p` does not wake it: every earlier phase but the rejection of orphan
      objects, which the failure of an orphan job can wake. On its own second run a rejection wakes no
      earlier phase and no orphan job. */
  predicate Undisturbed(p: Phase, q: Phase) {
    match p
    case Leases => false
    case Uploads => q.Leases?
    case OrphanObjects => q.Leases? || q.Uploads? || q.JoblessUploads? || q.OrphanJobs? || q.DirtyCounters?
    case JoblessUploads => q.Leases? || q.Uploads?
    case OrphanJobs => q.Leases? || q.Uploads? || q.JoblessUploads?
    case DirtyCounters => q.Leases? || q.Uploads? || q.JoblessUploads? || q.OrphanJobs?
    case RedundantObjects => !q.RedundantObjects? && !q.Retention?
    case Retention => !q.Retention?
  }

  lemma StaysIdle(s: State, p: Phase, q: Phase, rolls: map<Id, Jitter>, now: Time)
    requires ClockCovers(s, now) && Undisturbed(p, q) && Idle(s, q, now)
    ensures Idle(Full(s, p, rolls, now), q, now)
  {
    var batch := Candidates(s, p, now);
    var t := Full(s, p, rolls, now);
    match p
    case Leases =>
    case OrphanJobs => OrphanJobsDisturbLittle(s, batch, now, q);
    case OrphanObjects => RejectionsDisturbLittle(s, batch, now, q);
    case DirtyCounters => RepairsDisturbLittle(s, batch, now, q);
    case _ =>
      forall id ensures !Candidate(t, q, id, now) {
        assert !Candidate(s, q, id, now);
      }
  }

  lemma RepairsDisturbLittle(s: State, batch: set<Id>, now: Time, q: Phase)
    requires Undisturbed(DirtyCounters, q) && Idle(s, q, now)
    ensures Idle(RepairDirty(s, batch, now), q, now)
  {
    var t := RepairDirty(s, batch, now);
    forall id ensures !Candidate(t, q, id, now) {
      assert !Candidate(s, q, id, now);
      if q.JoblessUploads? && id in s.uploads {
        SameJobFor(s, t, s.uploads[id].org, id, s.uploads[id].objectId);
      }
    }
  }

  lemma OrphanJobsDisturbLittle(s: State, batch: set<Id>, now: Time, q: Phase)
    requires batch == Candidates(s, OrphanJobs, now) && ClockCovers(s, now) && Undisturbed(OrphanJobs, q) && Idle(s, q, now)
    ensures Idle(FailOrphans(s, batch, now), q, now)
  {
    var rows := OrphanRows(s, batch, now);
    var t := FailOrphans(s, batch, now);
    OrphanRowsShape(s, batch, now);
    UpdateJobsRows(s, rows, now);
    UpdateJobsItems(s, rows, now);
    forall id ensures !Candidate(t, q, id, now) {
      assert !Candidate(s, q, id, now);
      match q
      case JoblessUploads =>
        if id in s.uploads {
          SameJobFor(s, t, s.uploads[id].org, id, s.uploads[id].objectId);
        }
      case _ =>
    }
  }

  lemma SameJobFor(s: State, t: State, org: Org, upload: Id, oid: Id)
    requires t.jobs.Keys == s.jobs.Keys && forall id | id in s.jobs :: SameScope(s.jobs[id], t.jobs[id])
    ensures HasJobFor(t.jobs, org, upload, oid) == HasJobFor(s.jobs, org, upload, oid)
  {
    forall j | j in s.jobs ensures SameScope(s.jobs[j], t.jobs[j]) {
    }
    if HasJobFor(s.jobs, org, upload, oid) {
      var j :| j in s.jobs && s.jobs[j].org == org && (s.jobs[j].uploadId == Some(upload) || s.jobs[j].rootObject == Some(oid));
      assert t.jobs[j].org == org;
    }
    if HasJobFor(t.jobs, org, upload, oid) {
      var j :| j in t.jobs && t.jobs[j].org == org && (t.jobs[j].uploadId == Some(upload) || t.jobs[j].rootObject == Some(oid));
      assert s.jobs[j].org == org;
    }
  }

  /** A rejected object had no job waiting on it, so its rejection orphans none. */
  lemma RejectionsDisturbLittle(s: State, batch: set<Id>, now: Time, q: Phase)
    requires batch == Candidates(s, OrphanObjects, now) && Undisturbed(OrphanObjects, q) && Idle(s, q, now)
    ensures Idle(RejectOrphans(s, batch, now), q, now)
  {
    var t := RejectOrphans(s, batch, now);
    forall id ensures !Candidate(t, q, id, now) {
      assert !Candidate(s, q, id, now);
      if q.OrphanJobs? && id in s.jobs && OrphanJob(t.jobs, t.uploads, t.objects, id) {
        var root := s.jobs[id].rootObject.value;
        assert root in batch;
        assert OrphanObject(s.jobs, s.uploads, s.objects, root, now);
        assert HasHoldingJob(s.jobs, s.jobs[id].org, root);
        assert false;
      }
    }
  }

  lemma IdleMeansUnchanged(s: State, p: Phase, rolls: map<Id, Jitter>, now: Time)
    requires Idle(s, p, now)
    ensures Full(s, p, rolls, now) == s
  {
    assert Candidates(s, p, now) == {};
    EmptyBatchChangesNothing(s, p, rolls, now);
  }

  /** The phases that are idle after the first `n` statements of the first pass. */
  predicate Settled(n: nat, q: Phase)
    requires n <= |ORDER|
  {
    !q.OrphanObjects? && q in ORDER[..n]
  }

  lemma {:induction false} FirstPass(s: State, n: nat, rolls: map<Id, Jitter>, now: Time)
    requires n <= |ORDER| && ClockCovers(s, now)
    requires forall q | Settled(n, q) :: Idle(s, q, now)
    ensures ClockCovers(FullFrom(s, n, rolls, now), now)
    ensures forall q: Phase | !q.OrphanObjects? :: Idle(FullFrom(s, n, rolls, now), q, now)
    decreases |ORDER| - n
  {
    if n < |ORDER| {
      var p := ORDER[n];
      var t := Full(s, p, rolls, now);
      ClockStillCovers(s, p, Candidates(s, p, now), rolls, now);
      FullIdles(s, p, rolls, now);
      forall q | Settled(n + 1, q) ensures Idle(t, q, now) {
        if q != p {
          assert Settled(n, q);
          EarlierUndisturbed(n, q);
          StaysIdle(s, p, q, rolls, now);
        }
      }
      FirstPass(t, n + 1, rolls, now);
    } else {
      forall q: Phase | !q.OrphanObjects? ensures Settled(n, q) {
        var k := PhaseIndex(q);
      }
    }
  }

  lemma EarlierUndisturbed(n: nat, q: Phase)
    requires n < |ORDER| && Settled(n, q)
    ensures Undisturbed(ORDER[n], q)
  {
    assert ORDER[0] == Leases && ORDER[1] == Uploads && ORDER[2] == OrphanObjects && ORDER[3] == JoblessUploads;
    assert ORDER[4] == OrphanJobs && ORDER[5] == DirtyCounters && ORDER[6] == RedundantObjects && ORDER[7] == Retention;
    var k :| 0 <= k < n && ORDER[k] == q;
  }

  lemma FullAndStill(s: State, p: Phase, rolls: map<Id, Jitter>, now: Time)
    requires ClockCovers(s, now)
    ensures ClockCovers(Full(s, p, rolls, now), now) && Idle(Full(s, p, rolls, now), p, now)
    ensures forall q | Undisturbed(p, q) && Idle(s, q, now) :: Idle(Full(s, p, rolls, now), q, now)
  {
    ClockStillCovers(s, p, Candidates(s, p, now), rolls, now);
    FullIdles(s, p, rolls, now);
    forall q | Undisturbed(p, q) && Idle(s, q, now) ensures Idle(Full(s, p, rolls, now), q, now) {
      StaysIdle(s, p, q, rolls, now);
    }
  }

  /** The second pass on tables where only orphan objects are left. */
  lemma SecondPass(s: State, rolls: map<Id, Jitter>, now: Time)
    requires ClockCovers(s, now) && forall q: Phase | !q.OrphanObjects? :: Idle(s, q, now)
    ensures forall q: Phase :: Idle(FullPass(s, rolls, now), q, now)
  {
    var s1 := Full(s, OrphanObjects, rolls, now);
    FullAndStill(s, OrphanObjects, rolls, now);
    var s2 := Full(s1, RedundantObjects, rolls, now);
    FullAndStill(s1, RedundantObjects, rolls, now);
    FullAndStill(s2, Retention, rolls, now);
    SecondPassUnfolds(s, rolls, now);
  }

  /** Five of its statements have nothing to do. */
  lemma SecondPassUnfolds(s: State, rolls: map<Id, Jitter>, now: Time)
    requires ClockCovers(s, now) && forall q: Phase | !q.OrphanObjects? :: Idle(s, q, now)
    ensures FullPass(s, rolls, now) == Full(Full(Full(s, OrphanObjects, rolls, now), RedundantObjects, rolls, now), Retention, rolls, now)
  {
    var s1 := Full(s, OrphanObjects, rolls, now);
    FullAndStill(s, OrphanObjects, rolls, now);
    PassUnfolds(s, rolls, now);
    IdleMeansUnchanged(s, Leases, rolls, now);
    IdleMeansUnchanged(s, Uploads, rolls, now);
    IdleMeansUnchanged(s1, JoblessUploads, rolls, now);
    IdleMeansUnchanged(s1, OrphanJobs, rolls, now);
    IdleMeansUnchanged(s1, DirtyCounters, rolls, now);
  }

  lemma PassUnfolds(s: State, rolls: map<Id, Jitter>, now: Time)
    ensures FullPass(s, rolls, now)
         == Full(Full(Full(Full(Full(Full(Full(Full(s, Leases, rolls, now), Uploads, rolls, now), OrphanObjects, rolls, now),
                 JoblessUploads, rolls, now), OrphanJobs, rolls, now), DirtyCounters, rolls, now), RedundantObjects, rolls, now), Retention, rolls, now)
  {
    assert ORDER[0] == Leases && ORDER[1] == Uploads && ORDER[2] == OrphanObjects && ORDER[3] == JoblessUploads;
    assert ORDER[4] == OrphanJobs && ORDER[5] == DirtyCounters && ORDER[6] == RedundantObjects && ORDER[7] == Retention;
    var a := Full(s, Leases, rolls, now);
    assert FullFrom(s, 0, rolls, now) == FullFrom(a, 1, rolls, now);
    var b := Full(a, Uploads, rolls, now);
    assert FullFrom(a, 1, rolls, now) == FullFrom(b, 2, rolls, now);
    var c := Full(b, OrphanObjects, rolls, now);
    assert FullFrom(b, 2, rolls, now) == FullFrom(c, 3, rolls, now);
    var d := Full(c, JoblessUploads, rolls, now);
    assert FullFrom(c, 3, rolls, now) == FullFrom(d, 4, rolls, now);
    var e := Full(d, OrphanJobs, rolls, now);
    assert FullFrom(d, 4, rolls, now) == FullFrom(e, 5, rolls, now);
    var f := Full(e, DirtyCounters, rolls, now);
    assert FullFrom(e, 5, rolls, now) == FullFrom(f, 6, rolls, now);
    var g := Full(f, RedundantObjects, rolls, now);
    assert FullFrom(f, 6, rolls, now) == FullFrom(g, 7, rolls, now);
    assert FullFrom(g, 7, rolls, now) == FullFrom(Full(g, Retention, rolls, now), 8, rolls, now);
  }

  /** At a frozen clock, when neither the limit nor a lock held by others keeps a candidate out of its batch,
      two passes are enough: a third finds no candidate in any phase. */
  lemma TwoPassesSuffice(s: State, rolls: map<Id, Jitter>, again: map<Id, Jitter>, now: Time)
    requires ClockCovers(s, now)
    ensures Quiescent(FullPass(FullPass(s, rolls, now), again, now), now)
  {
    FirstPass(s, 0, rolls, now);
    var once := FullPass(s, rolls, now);
    SecondPass(once, again, now);
    var twice := FullPass(once, again, now);
    forall p: Phase ensures Candidates(twice, p, now) == {} {
      assert Idle(twice, p, now);
    }
  }

  // ---- one pass is not enough --------------------------------------------------------------------------

  /** A job whose upload expired before its object arrived; its counters are clean. */
  predicate Shape(job: Job, upload: Upload, o: StoredObject, now: Time) {
    && job.org == 0 && job.source.ManualXml? && job.rootObject == Some(1) && job.uploadId == Some(2)
    && job.counters == Counters(0, 0, 0, 0, 0, 0, 0, 0, 0) && job.reconciledAt == Some(now)
    && upload.org == 0 && upload.state.UExpired? && upload.objectId == 1
    && o.identity.org == 0 && o.lifecycle.PendingUpload? && o.createdAt + ORPHAN_GRACE <= now && o.retentionUntil.None?
  }

  /** The job still awaits it. */
  predicate Held(job: Job, upload: Upload, o: StoredObject, now: Time) {
    Shape(job, upload, o, now) && job.status.AwaitingUpload?
  }

  function Tables(job: Job, upload: Upload, o: StoredObject): State {
    State(map[3 := job], map[], map[2 := upload], map[1 := o])
  }

  /** While the job waits, its object is not an orphan: the only candidate is the job. */
  lemma OnlyTheJobIsDue(job: Job, upload: Upload, o: StoredObject, p: Phase, now: Time)
    requires Held(job, upload, o, now)
    ensures Candidates(Tables(job, upload, o), p, now) == if p.OrphanJobs? then {3} else {}
  {
    var s := Tables(job, upload, o);
    assert HasHoldingJob(s.jobs, 0, 1) by { assert s.jobs[3].rootObject == Some(1); }
    forall id ensures Candidate(s, p, id, now) <==> p.OrphanJobs? && id == 3 {
      assert id in s.jobs <==> id == 3;
      assert id in s.uploads <==> id == 2;
      assert id in s.objects <==> id == 1;
    }
  }

  /** Failing it frees the object: now the object is the only candidate. */
  lemma OnlyTheObjectIsDue(job: Job, upload: Upload, o: StoredObject, p: Phase, now: Time)
    requires Shape(job, upload, o, now) && job.status.FailedFinal?
    ensures Candidates(Tables(job, upload, o), p, now) == if p.OrphanObjects? then {1} else {}
  {
    var s := Tables(job, upload, o);
    forall id ensures Candidate(s, p, id, now) <==> p.OrphanObjects? && id == 1 {
      assert id in s.jobs <==> id == 3;
      assert id in s.uploads <==> id == 2;
      assert id in s.objects <==> id == 1;
    }
  }

  lemma FailingTheJob(job: Job, upload: Upload, o: StoredObject, rolls: map<Id, Jitter>, now: Time)
    requires Held(job, upload, o, now)
    ensures Full(Tables(job, upload, o), OrphanJobs, rolls, now) == Tables(FailOrphan(job, now).value, upload, o)
  {
    var s := Tables(job, upload, o);
    OnlyTheJobIsDue(job, upload, o, OrphanJobs, now);
    assert OrphanJob(s.jobs, s.uploads, s.objects, 3);
    var rows := OrphanRows(s, {3}, now);
    assert rows.Keys == {3} && rows[3] == FailOrphan(job, now).value;
    PlainUpdate(s, rows, now);
    assert UpdateJobs(s, rows, now).jobs == map[3 := FailOrphan(job, now).value];
  }

  lemma FailedKeepsShape(job: Job, upload: Upload, o: StoredObject, now: Time)
    requires Held(job, upload, o, now)
    ensures FailOrphan(job, now).Some? && FailOrphan(job, now).value.status.FailedFinal? && Shape(FailOrphan(job, now).value, upload, o, now)
  {
  }

  lemma NothingDue(s: State, p: Phase, rolls: map<Id, Jitter>, now: Time)
    requires Candidates(s, p, now) == {}
    ensures Full(s, p, rolls, now) == s
  {
    EmptyBatchChangesNothing(s, p, rolls, now);
  }

  /** A pass in which only orphan jobs find something, and which leaves only orphan objects. */
  lemma FailFirstRejectLater(s: State, t: State, rolls: map<Id, Jitter>, now: Time)
    requires forall p: Phase | p != OrphanJobs :: Full(s, p, rolls, now) == s
    requires Full(s, OrphanJobs, rolls, now) == t
    requires forall p: Phase | p != OrphanObjects :: Full(t, p, rolls, now) == t
    ensures FullPass(s, rolls, now) == t
  {
    PassUnfolds(s, rolls, now);
    assert Full(s, Leases, rolls, now) == s && Full(s, Uploads, rolls, now) == s;
    assert Full(s, OrphanObjects, rolls, now) == s && Full(s, JoblessUploads, rolls, now) == s;
    assert Full(t, DirtyCounters, rolls, now) == t && Full(t, RedundantObjects, rolls, now) == t && Full(t, Retention, rolls, now) == t;
  }

  lemma OnePass(job: Job, failed: Job, upload: Upload, o: StoredObject, rolls: map<Id, Jitter>, now: Time)
    requires Held(job, upload, o, now) && FailOrphan(job, now) == Some(failed)
    requires Shape(failed, upload, o, now) && failed.status.FailedFinal?
    ensures FullPass(Tables(job, upload, o), rolls, now) == Tables(failed, upload, o)
  {
    var s, t := Tables(job, upload, o), Tables(failed, upload, o);
    forall p: Phase | p != OrphanJobs ensures Full(s, p, rolls, now) == s {
      OnlyTheJobIsDue(job, upload, o, p, now);
      NothingDue(s, p, rolls, now);
    }
    FailingTheJob(job, upload, o, rolls, now);
    forall p: Phase | p != OrphanObjects ensures Full(t, p, rolls, now) == t {
      OnlyTheObjectIsDue(failed, upload, o, p, now);
      NothingDue(t, p, rolls, now);
    }
    FailFirstRejectLater(s, t, rolls, now);
  }

  /** One pass is not enough: the first pass looks at orphan objects before it fails the job that holds one, so it
      ends with the object still to be rejected. */
  lemma OnePassIsNotEnough(job: Job, upload: Upload, o: StoredObject, rolls: map<Id, Jitter>, now: Time)
    requires Held(job, upload, o, now) && Checks(job) && UploadChecks(upload) && ObjectChecks(o)
    ensures Candidates(FullPass(Tables(job, upload, o), rolls, now), OrphanObjects, now) == {1}
  {
    FailedKeepsShape(job, upload, o, now);
    var failed := FailOrphan(job, now).value;
    OnePass(job, failed, upload, o, rolls, now);
    OnlyTheObjectIsDue(failed, upload, o, OrphanObjects, now);
  }

  /** Such a store exists at any time an object can be old enough. */
  lemma SuchAStoreExists(now: Time) returns (job: Job, upload: Upload, o: StoredObject)
    requires now >= ORPHAN_GRACE
    ensures Held(job, upload, o, now) && Checks(job) && UploadChecks(upload) && ObjectChecks(o)
  {
    job := Job(0, ManualXml, Some(2), Some(1), AwaitingUpload, Counters(0, 0, 0, 0, 0, 0, 0, 0, 0), Some(now), 0, 0, None, None, None,
               None, None, None, None, None, None, None, 0, 0, 1);
    upload := Upload(0, 1, UExpired, 0, None, None, None, 0, 1);
    o := StoredObject(Identity(0, 0, 0, XmlUpload, "local", "files", "key", None, None, "fiscal"), Bytes(None, None, None, None),
                      PendingUpload, ScanPending, None, None, None, None, None, None, None, None, None, None, 0, 0, 1);
  }
}
