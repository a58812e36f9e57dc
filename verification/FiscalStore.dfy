/** The tables as PostgreSQL holds them, with the reconciler as it runs: argument checks, then the
    eight statements one after the other, each updating the first hundred candidates in its order
    whose rows nobody else holds. */
module FiscalStore {
  import opened Support
  import opened Jobs
  import opened Items
  import opened Objects
  import opened Reconciler
  import opened ReconcilerRuns
  import opened ReconcilerLaws

  // ---- ORDER BY ... LIMIT ------------------------------------------------------------------

  datatype SortKey = SortKey(first: nat, second: nat)

  predicate SortsBefore(keys: map<Id, SortKey>, a: Id, b: Id)
    requires a in keys && b in keys
  {
    || keys[a].first < keys[b].first
    || (keys[a].first == keys[b].first && (keys[a].second < keys[b].second || (keys[a].second == keys[b].second && a <= b)))
  }

  predicate LeastOf(candidates: set<Id>, keys: map<Id, SortKey>, id: Id)
    requires candidates <= keys.Keys
  {
    id in candidates && forall other | other in candidates :: SortsBefore(keys, id, other)
  }

  /** The first `limit` candidates in order. */
  predicate IsBatch(candidates: set<Id>, keys: map<Id, SortKey>, limit: nat, batch: set<Id>)
    requires candidates <= keys.Keys
  {
    && batch <= candidates
    && |batch| == Min(limit, |candidates|)
    && forall a, b | a in batch && b in candidates && b !in batch :: SortsBefore(keys, a, b)
  }

  lemma {:induction false} LeastExists(candidates: set<Id>, keys: map<Id, SortKey>)
    requires candidates <= keys.Keys && |candidates| > 0
    ensures exists id :: LeastOf(candidates, keys, id)
  {
    var x :| x in candidates;
    var rest := candidates - {x};
    assert forall other | other in candidates :: other == x || other in rest;
    if |rest| == 0 {
      assert LeastOf(candidates, keys, x);
    } else {
      LeastExists(rest, keys);
      var y :| LeastOf(rest, keys, y);
      assert LeastOf(candidates, keys, if SortsBefore(keys, x, y) then x else y);
    }
  }

  predicate Distinct(ids: seq<Id>) {
    forall i, j | 0 <= i < j < |ids| :: ids[i] != ids[j]
  }

  function Elements(ids: seq<Id>): set<Id> {
    set k | 0 <= k < |ids| :: ids[k]
  }

  /** SELECT ... ORDER BY ... LIMIT: the batch as the rows come. */
  method FirstBatch(candidates: set<Id>, keys: map<Id, SortKey>, limit: nat) returns (ids: seq<Id>)
    requires candidates <= keys.Keys
    ensures Distinct(ids) && IsBatch(candidates, keys, limit, Elements(ids)) && |ids| == Min(limit, |candidates|)
    ensures forall i, j | 0 <= i < j < |ids| :: ids[i] in candidates && ids[j] in candidates && SortsBefore(keys, ids[i], ids[j])
  {
    ids := [];
    var remaining := candidates;
    while |ids| < limit && |remaining| > 0
      invariant Distinct(ids) && (forall i | 0 <= i < |ids| :: ids[i] in candidates && ids[i] !in remaining)
      invariant remaining <= candidates && forall c | c in candidates && c !in remaining :: c in ids
      invariant |ids| <= limit && |ids| + |remaining| == |candidates|
      invariant forall i, b | 0 <= i < |ids| && b in remaining :: SortsBefore(keys, ids[i], b)
      invariant forall i, j | 0 <= i < j < |ids| :: SortsBefore(keys, ids[i], ids[j])
      decreases |remaining|
    {
      LeastExists(remaining, keys);
      var id :| id in remaining && LeastOf(remaining, keys, id);
      ids := ids + [id];
      remaining := remaining - {id};
    }
    assert Elements(ids) == candidates - remaining;
  }

  /** The ORDER BY of each statement; the id breaks the last tie, and NULLs come first where the column is nullable. */
  function SortKeyOf(s: State, p: Phase, id: Id): SortKey
    requires id in Rows(s, p)
  {
    match p
    case Leases => SortKey(Coalesce(s.jobs[id].leaseExpiresAt, 0), 0)
    case Uploads => SortKey(s.uploads[id].expiresAt, 0)
    case OrphanObjects => SortKey(s.objects[id].createdAt, 0)
    case JoblessUploads => SortKey(Coalesce(s.uploads[id].confirmedAt, 0), s.uploads[id].objectId)
    case OrphanJobs => SortKey(s.jobs[id].createdAt, 0)
    case DirtyCounters => SortKey(if s.jobs[id].reconciledAt.Some? then s.jobs[id].reconciledAt.value + 1 else 0, s.jobs[id].updatedAt)
    case RedundantObjects => SortKey(s.objects[id].createdAt, 0)
    case Retention => SortKey(Coalesce(s.objects[id].retentionUntil, 0), 0)
  }

  function SortKeys(s: State, p: Phase): (keys: map<Id, SortKey>)
    ensures keys.Keys == Rows(s, p)
  {
    map id | id in Rows(s, p) :: SortKeyOf(s, p, id)
  }

  const LIMIT: nat := 100

  /** The batch a statement takes when others hold some rows. */
  predicate Takes(s: State, p: Phase, held: set<Id>, batch: set<Id>, now: Time) {
    Candidates(s, p, now) <= Rows(s, p) && IsBatch(Candidates(s, p, now) - held, SortKeys(s, p), LIMIT, batch)
  }

  /** The column a statement works its candidates off by; no confirmation date and no mark come first. */
  function Due(s: State, p: Phase, id: Id): Option<Time>
    requires id in Rows(s, p)
  {
    match p
    case Leases => s.jobs[id].leaseExpiresAt
    case Uploads => Some(s.uploads[id].expiresAt)
    case OrphanObjects => Some(s.objects[id].createdAt)
    case JoblessUploads => s.uploads[id].confirmedAt
    case OrphanJobs => Some(s.jobs[id].createdAt)
    case DirtyCounters => s.jobs[id].reconciledAt
    case RedundantObjects => Some(s.objects[id].createdAt)
    case Retention => s.objects[id].retentionUntil
  }

  /** A statement takes at most a hundred candidates, none of them held, and all that are not held when there are no more than a hundred;
      whatever it leaves is due no earlier than anything it takes, unmarked counters coming before marked ones. */
  predicate TakesTheOldest(s: State, p: Phase, held: set<Id>, batch: set<Id>, now: Time) {
    && Candidates(s, p, now) <= Rows(s, p) && batch <= Candidates(s, p, now) && batch !! held
    && |batch| <= 100 && (|batch| < 100 ==> batch == Candidates(s, p, now) - held)
    && forall a, b | a in batch && b in Candidates(s, p, now) && b !in held && b !in batch ::
         NoLater(Due(s, p, a), Due(s, p, b)) && (Due(s, p, a) == Due(s, p, b) ==> TieBroken(s, p, a, b))
  }

  predicate NoLater(a: Option<Time>, b: Option<Time>) {
    a.None? || (b.Some? && a.value <= b.value)
  }

  /** Rows due at the same time go by id; confirmed uploads by the id of their object, dirty jobs by their last update. */
  predicate TieBroken(s: State, p: Phase, a: Id, b: Id)
    requires a in Rows(s, p) && b in Rows(s, p)
  {
    if p.JoblessUploads? then s.uploads[a].objectId <= s.uploads[b].objectId
    else if p.DirtyCounters? then s.jobs[a].updatedAt < s.jobs[b].updatedAt || (s.jobs[a].updatedAt == s.jobs[b].updatedAt && a < b)
    else a < b
  }

  lemma DueIsKnown(s: State, p: Phase, id: Id, now: Time)
    requires Candidate(s, p, id, now)
    ensures id in Rows(s, p) && (!p.DirtyCounters? ==> Due(s, p, id).Some?)
  {
  }

  lemma KeysGiveOrder(s: State, p: Phase, a: Id, b: Id, now: Time)
    requires Candidate(s, p, a, now) && Candidate(s, p, b, now) && a in Rows(s, p) && b in Rows(s, p) && a != b
    requires SortsBefore(SortKeys(s, p), a, b)
    ensures NoLater(Due(s, p, a), Due(s, p, b)) && (Due(s, p, a) == Due(s, p, b) ==> TieBroken(s, p, a, b))
  {
    DueIsKnown(s, p, a, now);
    DueIsKnown(s, p, b, now);
  }

  lemma BatchIsOldest(s: State, p: Phase, held: set<Id>, batch: set<Id>, now: Time)
    requires Takes(s, p, held, batch, now)
    ensures TakesTheOldest(s, p, held, batch, now)
  {
    var free := Candidates(s, p, now) - held;
    if |batch| < 100 {
      WholeBatch(free, batch);
    }
    forall a, b | a in batch && b in Candidates(s, p, now) && b !in held && b !in batch
      ensures NoLater(Due(s, p, a), Due(s, p, b)) && (Due(s, p, a) == Due(s, p, b) ==> TieBroken(s, p, a, b))
    {
      assert SortsBefore(SortKeys(s, p), a, b);
      KeysGiveOrder(s, p, a, b, now);
    }
  }

  predicate AllTakeTheOldest(s: State, run: seq<Statement>, held: seq<set<Id>>, now: Time)
    requires |held| == |run|
  {
    forall n | 0 <= n < |run| :: TakesTheOldest(Execute(s, run[..n], now), run[n].phase, held[n], run[n].batch, now)
  }

  lemma {:induction false} BatchIsOldestAt(s: State, run: seq<Statement>, held: seq<set<Id>>, now: Time, n: nat)
    requires |held| == |run| && Taken(s, run, held, now) && n < |run|
    ensures TakesTheOldest(Execute(s, run[..n], now), run[n].phase, held[n], run[n].batch, now)
    decreases n
  {
    if n == 0 {
      BatchIsOldest(s, run[0].phase, held[0], run[0].batch, now);
    } else {
      var next := Exec(s, run[0].phase, run[0].batch, run[0].rolls, now);
      BatchIsOldestAt(next, run[1..], held[1..], now, n - 1);
      assert run[..n][1..] == run[1..][..n - 1];
    }
  }

  /** Every statement of a call takes the oldest rows that are free when it runs. */
  lemma BatchesAreOldest(s: State, run: seq<Statement>, held: seq<set<Id>>, now: Time)
    requires |held| == |run| && Taken(s, run, held, now)
    ensures AllTakeTheOldest(s, run, held, now)
  {
    forall n | 0 <= n < |run| ensures TakesTheOldest(Execute(s, run[..n], now), run[n].phase, held[n], run[n].batch, now) {
      BatchIsOldestAt(s, run, held, now, n);
    }
  }

  /** A run whose every batch is the one PostgreSQL takes. */
  predicate Taken(s: State, run: seq<Statement>, held: seq<set<Id>>, now: Time)
    decreases |run|
  {
    run != [] ==>
      && held != [] && Takes(s, run[0].phase, held[0], run[0].batch, now)
      && Taken(Exec(s, run[0].phase, run[0].batch, run[0].rolls, now), run[1..], held[1..], now)
  }

  // ---- the arguments -----------------------------------------------------------------------

  datatype Settings = Settings(
    limit: Option<int>, orphanGraceMinutes: Option<int>, duplicateBytesHours: Option<int>, invalidObjectDays: Option<int>,
    backoffSeconds: Option<seq<int>>, jitterPercent: Option<int>, maxAttempts: Option<int>, maxRetries: Option<int>)

  datatype SettingError = WrongLimit | WrongGrace | WrongDuplicateHours | WrongInvalidDays | WrongBackoff
                        | WrongJitter | WrongMaxAttempts | WrongMaxRetries

  /** The first argument that is refused, in the order they are checked; every one is locked to a single value
      except the jitter. */
  function Refused(a: Settings): Option<SettingError> {
    if a.limit != Some(LIMIT) then Some(WrongLimit)
    else if a.orphanGraceMinutes != Some(60) then Some(WrongGrace)
    else if a.duplicateBytesHours != Some(24) then Some(WrongDuplicateHours)
    else if a.invalidObjectDays != Some(7) then Some(WrongInvalidDays)
    else if a.backoffSeconds != Some(BACKOFF_SECONDS) then Some(WrongBackoff)
    else if a.jitterPercent.None? || a.jitterPercent.value < 0 || a.jitterPercent.value > 50 then Some(WrongJitter)
    else if a.maxAttempts != Some(MAX_ATTEMPTS) then Some(WrongMaxAttempts)
    else if a.maxRetries != Some(MAX_RETRIES) then Some(WrongMaxRetries)
    else None
  }

  /** A call goes ahead exactly with these figures; the jitter may be anything up to fifty percent. */
  lemma SettingsThatPass(a: Settings)
    ensures Refused(a).None? <==>
              && a.limit == Some(100) && a.orphanGraceMinutes == Some(60) && a.duplicateBytesHours == Some(24) && a.invalidObjectDays == Some(7)
              && a.backoffSeconds == Some([10, 30, 120]) && a.jitterPercent.Some? && 0 <= a.jitterPercent.value <= 50
              && a.maxAttempts == Some(4) && a.maxRetries == Some(3)
    ensures Refused(a) == Some(WrongLimit) <==> a.limit != Some(100)
    ensures Refused(a) == Some(WrongJitter) ==>
              a.jitterPercent.None? || a.jitterPercent.value < 0 || a.jitterPercent.value > 50
  {
  }

  /** The ten counts the function returns. */
  datatype Report = Report(
    leaseRetryable: nat, leaseFinal: nat, leaseCancelled: nat, expiredUpload: nat, rejectedOrphanObject: nat,
    confirmedWithoutJob: nat, orphanJob: nat, repairedCounter: nat, redundantObject: nat, retentionEligible: nat)

  /** What the counts mean for the pass that was run: the recovered leases by the status they ended in, the jobs whose
      cached counters were wrong, and the rows updated by every other statement. */
  predicate Reports(r: Report, start: State, run: seq<Statement>, now: Time) {
    |run| == |ORDER| && FirstCounts(r, start, run, now) && LastCounts(r, start, run, now)
  }

  predicate LeaseCounts(r: Report, start: State, run: seq<Statement>, now: Time) {
    && |run| >= 1
    && var recovered := Execute(start, run[..1], now);
       && r.leaseRetryable == StatusCount(recovered, run[0].batch, FailedRetryable)
       && r.leaseFinal == StatusCount(recovered, run[0].batch, FailedFinal)
       && r.leaseCancelled == StatusCount(recovered, run[0].batch, Cancelled)
  }

  predicate FirstCounts(r: Report, start: State, run: seq<Statement>, now: Time) {
    && |run| >= 5
    && LeaseCounts(r, start, run, now)
    && r.expiredUpload == |run[1].batch|
    && r.rejectedOrphanObject == |run[2].batch|
    && r.confirmedWithoutJob == |run[3].batch|
    && r.orphanJob == |run[4].batch|
  }

  predicate LastCounts(r: Report, start: State, run: seq<Statement>, now: Time) {
    && |run| >= 8
    && r.repairedCounter == |Misshown(Execute(start, run[..5], now), run[5].batch)|
    && r.redundantObject == |run[6].batch|
    && r.retentionEligible == |run[7].batch|
  }

  function WrongCount(s: State, batch: set<Id>): nat {
    |set id | id in batch && id in s.jobs && !Agrees(s.jobs[id], id, s.items)|
  }

  /** The jobs of a batch whose row does not show the counts of their items. */
  function Misshown(s: State, batch: set<Id>): set<Id> {
    set id | id in batch && id in s.jobs && !ShowsCounts(s.jobs[id].counters, s.items, s.jobs[id].org, id)
  }

  lemma WrongAreMisshown(s: State, batch: set<Id>)
    ensures WrongCount(s, batch) == |Misshown(s, batch)|
  {
    forall id | id in s.jobs ensures Agrees(s.jobs[id], id, s.items) <==> ShowsCounts(s.jobs[id].counters, s.items, s.jobs[id].org, id) {
      CountShows(s.items, s.jobs[id].org, id);
      if ShowsCounts(s.jobs[id].counters, s.items, s.jobs[id].org, id) {
        SameShown(s.jobs[id].counters, Count(s.items, s.jobs[id].org, id), s.items, s.jobs[id].org, id);
      }
    }
    assert Misshown(s, batch) == set id | id in batch && id in s.jobs && !Agrees(s.jobs[id], id, s.items);
  }

  /** The counts of the first five statements and of the last three. */
  function Halves(first: Report, second: Report): Report {
    second.(leaseRetryable := first.leaseRetryable, leaseFinal := first.leaseFinal, leaseCancelled := first.leaseCancelled,
            expiredUpload := first.expiredUpload, rejectedOrphanObject := first.rejectedOrphanObject,
            confirmedWithoutJob := first.confirmedWithoutJob, orphanJob := first.orphanJob)
  }

  predicate InOrder(run: seq<Statement>) {
    |run| <= |ORDER| && forall k | 0 <= k < |run| :: run[k].phase == ORDER[k]
  }

  lemma InOrderGrows(run: seq<Statement>, st: Statement)
    requires InOrder(run) && |run| < |ORDER| && st.phase == ORDER[|run|]
    ensures InOrder(run + [st])
  {
  }

  /** A run of statements that took PostgreSQL's batches and led to these tables. */
  predicate Progress(start: State, run: seq<Statement>, held: seq<set<Id>>, now: Time, contents: State) {
    && |held| == |run| && InOrder(run)
    && Legal(start, run, now) && Taken(start, run, held, now) && contents == Execute(start, run, now)
  }

  function WithStatus(s: State, batch: set<Id>, status: Status): set<Id> {
    set id | id in batch && id in s.jobs && s.jobs[id].status == status
  }

  function StatusCount(s: State, batch: set<Id>, status: Status): nat {
    |WithStatus(s, batch, status)|
  }

  /** What a job statement does to the items and counters: nothing, unless it brings a ZIP job to an end. Then every unfinished item of the job
      becomes an internal error with the reason of the job, every other item stays, and the counters are those of the items as they are left. */
  predicate EndsZip(before: Store, after: Store, id: Id, row: Job, now: Time)
    requires id in before.jobs && id in after.jobs
  {
    var ends := && row.source == ManualZip && row.status != before.jobs[id].status
                && (row.status == Completed || row.status == CompletedWithIssues || row.status == FailedFinal || row.status == Cancelled);
    && after.items.Keys == before.items.Keys
    && (forall k | k in before.items ::
          var i := before.items[k];
          after.items[k] == if ends && i.org == row.org && i.job == id && i.technical != Done then Failed(i, row, now) else i)
    && (forall other | other in before.jobs && other != id :: other in after.jobs && after.jobs[other] == before.jobs[other])
    && after.jobs[id] == row.(counters := after.jobs[id].counters, reconciledAt := if ends then Some(now) else row.reconciledAt)
    && (if ends then ShowsCounts(after.jobs[id].counters, after.items, row.org, id) else after.jobs[id].counters == row.counters)
  }

  function Failed(i: Item, row: Job, now: Time): Item {
    var reason := if row.status == Cancelled then "ZIP_CANCELLED" else Coalesce(row.lastErrorCode, "UNEXPECTED_WORKER_ERROR");
    Item(i.org, i.job, i.objectId, Done, Some(InternalError), Some(reason), Some(now), now, i.version + 1)
  }

  lemma UpdateEndsZip(s: Store, id: Id, row: Job, now: Time)
    requires id in s.jobs
    ensures EndsZip(s, UpdateJob(s, id, row, now), id, row, now)
  {
    if Finalises(s.jobs[id], row) {
      var items := FinishItems(s.items, row.org, id, FinalErrorCode(row), now);
      assert AtStage(items, row.org, id, Pending) == {} && AtStage(items, row.org, id, InProgress) == {};
      CountShows(items, row.org, id);
    }
  }

  class Tables {
    var jobs: JobTable
    var items: ItemTable
    var uploads: UploadTable
    var objects: ObjectTable

    function Contents(): State
      reads this
    {
      State(jobs, items, uploads, objects)
    }

    /** An item statement with its trigger. */
    method WriteItem(k: Id, item: Item) returns (accepted: bool)
      modifies this`jobs, this`items
      ensures accepted <==>
                && (item.technical == Done <==> item.product.Some?) && (item.technical == Done <==> item.processedAt.Some?) && item.version >= 1
                && (item.product == Some(Incorporated) || item.product == Some(Duplicate) ==> item.errorCode.None?)
                && (item.product.Some? && item.errorCode.None? ==> item.product == Some(Incorporated) || item.product == Some(Duplicate))
      ensures items == if accepted then old(items)[k := item] else old(items)
      ensures jobs.Keys == old(jobs).Keys
      ensures forall id | id in jobs :: jobs[id] ==
                if accepted && ((jobs[id].org == item.org && id == item.job)
                                || (k in old(items) && jobs[id].org == old(items)[k].org && id == old(items)[k].job))
                then old(jobs)[id].(reconciledAt := None) else old(jobs)[id]
      ensures Store(jobs, items) == if accepted then PutItem(Store(old(jobs), old(items)), k, item) else Store(old(jobs), old(items))
    {
      accepted := ItemChecks(item);
      if accepted {
        if k in items {
          jobs := MarkDirty(jobs, items[k].org, items[k].job);
        }
        jobs := MarkDirty(jobs, item.org, item.job);
        items := items[k := item];
      }
    }

    /** A job statement with the ZIP finaliser: the trigger rewrites the items, then the row being written. */
    method WriteJob(id: Id, row: Job, now: Time)
      requires id in jobs
      modifies this`jobs, this`items
      ensures Store(jobs, items) == UpdateJob(Store(old(jobs), old(items)), id, row, now)
      ensures id in jobs && EndsZip(Store(old(jobs), old(items)), Store(jobs, items), id, row, now)
    {
      UpdateEndsZip(Store(jobs, items), id, row, now);
      var written := row;
      if Finalises(jobs[id], row) {
        items := FinishItems(items, row.org, id, FinalErrorCode(row), now);
        written := row.(counters := FinalCounters(items, row.org, id), reconciledAt := Some(now));
      }
      jobs := jobs[id := written];
    }

    method RunStatement(p: Phase, held: set<Id>, rolls: map<Id, Jitter>, now: Time) returns (batch: set<Id>)
      modifies this
      ensures Takes(old(Contents()), p, held, batch, now)
      ensures Contents() == Exec(old(Contents()), p, batch, rolls, now)
    {
      var s := Contents();
      var candidates := Candidates(s, p, now);
      assert forall id | id in candidates :: id in Rows(s, p);
      var ids := FirstBatch(candidates - held, SortKeys(s, p), LIMIT);
      batch := Elements(ids);
      var t := Exec(s, p, batch, rolls, now);
      jobs, items, uploads, objects := t.jobs, t.items, t.uploads, t.objects;
    }

    /** Statement `n` of a call; `run` records the ones before it. */
    method RunNext(n: nat, held: seq<set<Id>>, rolls: map<Id, Jitter>, now: Time, ghost start: State, ghost run: seq<Statement>)
      returns (batch: set<Id>, ghost longer: seq<Statement>)
      requires n < |ORDER| == |held| && |run| == n && Progress(start, run, held[..n], now, Contents())
      modifies this
      ensures |longer| == n + 1 && longer[..n] == run && longer[n].batch == batch
      ensures Progress(start, longer, held[..n + 1], now, Contents())
    {
      ghost var before := Contents();
      batch := RunStatement(ORDER[n], held[n], rolls, now);
      longer := run + [Statement(ORDER[n], batch, rolls)];
      ProgressGrows(start, run, Statement(ORDER[n], batch, rolls), held[..n], held[n], now, before);
      assert held[..n] + [held[n]] == held[..n + 1];
    }

    /** One call: refused with nothing changed, or the eight statements in order. `held[n]` are the rows locked by
        others while statement `n` runs. */
    method Reconcile(a: Settings, held: seq<set<Id>>, rolls: map<Id, Jitter>, now: Time)
      returns (r: Result<Report, SettingError>, ghost run: seq<Statement>)
      requires |held| == |ORDER|
      modifies this
      ensures Refused(a).Some? ==> r == Err(Refused(a).value) && Contents() == old(Contents())
      ensures Refused(a).None? ==> r.Ok? && IsPass(run) && Progress(old(Contents()), run, held, now, Contents())
      ensures r.Ok? ==> Reports(r.value, old(Contents()), run, now)
      ensures r.Ok? ==> ChangesLawful(old(Contents()), Contents(), now)
      ensures r.Ok? ==> |run| == |held| && AllTakeTheOldest(old(Contents()), run, held, now)
    {
      run := [];
      var refused := Refused(a);
      if refused.Some? {
        return Err(refused.value), [];
      }
      ghost var start := Contents();
      var report;
      report, run := RunAll(held, rolls, now, start);
      ProgressIsLawful(start, run, held, now, Contents());
      r := Ok(report);
    }

    /** The eight statements of a call. */
    method RunAll(held: seq<set<Id>>, rolls: map<Id, Jitter>, now: Time, ghost start: State) returns (report: Report, ghost run: seq<Statement>)
      requires |held| == |ORDER| && start == Contents()
      modifies this
      ensures |run| == |ORDER| && Progress(start, run, held, now, Contents()) && Reports(report, start, run, now)
    {
      var first, second;
      ghost var run5;
      first, run5 := RecoverToOrphans(held, rolls, now, start);
      second, run := RepairToRetention(held, rolls, now, start, run5);
      assert held[..|ORDER|] == held;
      ReportsOfHalves(first, second, start, run5, run, now);
      report := Halves(first, second);
    }

    /** Statement 1: leases, counted by the status they end in. */
    method RecoverFirst(held: seq<set<Id>>, rolls: map<Id, Jitter>, now: Time, ghost start: State)
      returns (report: Report, ghost run: seq<Statement>)
      requires |held| == |ORDER| && start == Contents()
      modifies this
      ensures |run| == 1 && Progress(start, run, held[..1], now, Contents()) && LeaseCounts(report, start, run, now)
    {
      var batch;
      batch, run := RunNext(0, held, rolls, now, start, []);
      assert run[..1] == run;
      report := Report(StatusCount(Contents(), batch, FailedRetryable), StatusCount(Contents(), batch, FailedFinal),
                       StatusCount(Contents(), batch, Cancelled), 0, 0, 0, 0, 0, 0, 0);
    }

    /** Statements 1 to 3: then uploads and orphan objects. */
    method RecoverToRejections(held: seq<set<Id>>, rolls: map<Id, Jitter>, now: Time, ghost start: State)
      returns (report: Report, ghost run: seq<Statement>)
      requires |held| == |ORDER| && start == Contents()
      modifies this
      ensures |run| == 3 && Progress(start, run, held[..3], now, Contents())
      ensures LeaseCounts(report, start, run, now) && report.expiredUpload == |run[1].batch| && report.rejectedOrphanObject == |run[2].batch|
    {
      var b1, b2;
      ghost var run1, run2;
      report, run1 := RecoverFirst(held, rolls, now, start);
      b1, run2 := RunNext(1, held, rolls, now, start, run1);
      b2, run := RunNext(2, held, rolls, now, start, run2);
      LeaseCountsStay(report, start, run1, run2, run, now);
      report := report.(expiredUpload := |b1|, rejectedOrphanObject := |b2|);
    }

    /** Statements 1 to 5: then uploads without a job and orphan jobs. */
    method RecoverToOrphans(held: seq<set<Id>>, rolls: map<Id, Jitter>, now: Time, ghost start: State)
      returns (report: Report, ghost run: seq<Statement>)
      requires |held| == |ORDER| && start == Contents()
      modifies this
      ensures |run| == 5 && Progress(start, run, held[..5], now, Contents())
      ensures FirstCounts(report, start, run, now)
    {
      var b3, b4;
      ghost var run3, run4;
      report, run3 := RecoverToRejections(held, rolls, now, start);
      b3, run4 := RunNext(3, held, rolls, now, start, run3);
      b4, run := RunNext(4, held, rolls, now, start, run4);
      FirstCountsHold(report, start, run3, run4, run, now);
      report := report.(confirmedWithoutJob := |b3|, orphanJob := |b4|);
    }

    /** Statements 6 to 8: counters, redundant objects, retention. */
    method RepairToRetention(held: seq<set<Id>>, rolls: map<Id, Jitter>, now: Time, ghost start: State, ghost run5: seq<Statement>)
      returns (report: Report, ghost run: seq<Statement>)
      requires |held| == |ORDER| && |run5| == 5 && Progress(start, run5, held[..5], now, Contents())
      modifies this
      ensures |run| == 8 && run[..5] == run5 && Progress(start, run, held[..8], now, Contents())
      ensures LastCounts(report, start, run, now)
    {
      var wrong, b6, b7;
      ghost var run6, run7;
      wrong, run6 := RepairFirst(held, rolls, now, start, run5);
      b6, run7 := RunNext(6, held, rolls, now, start, run6);
      b7, run := RunNext(7, held, rolls, now, start, run7);
      LastCountsHold(start, run5, run6, run7, run, now, wrong);
      report := Report(0, 0, 0, 0, 0, 0, 0, wrong, |b6|, |b7|);
    }

    /** Statement 6, counting the jobs whose cached counters were wrong. */
    method RepairFirst(held: seq<set<Id>>, rolls: map<Id, Jitter>, now: Time, ghost start: State, ghost run5: seq<Statement>)
      returns (wrong: nat, ghost run: seq<Statement>)
      requires |held| == |ORDER| && |run5| == 5 && Progress(start, run5, held[..5], now, Contents())
      modifies this
      ensures |run| == 6 && run[..5] == run5 && Progress(start, run, held[..6], now, Contents())
      ensures wrong == |Misshown(Execute(start, run5, now), run[5].batch)|
    {
      var before := Contents();
      var batch;
      batch, run := RunNext(5, held, rolls, now, start, run5);
      wrong := WrongCount(before, batch);
      WrongAreMisshown(before, batch);
    }
  }

  lemma ProgressIsLawful(start: State, run: seq<Statement>, held: seq<set<Id>>, now: Time, contents: State)
    requires Progress(start, run, held, now, contents)
    ensures ChangesLawful(start, contents, now) && AllTakeTheOldest(start, run, held, now)
  {
    RunsAreLawful(start, run, now);
    BatchesAreOldest(start, run, held, now);
  }

  /** A longer run has the same first statement. */
  lemma LeaseCountsStay(r: Report, start: State, one: seq<Statement>, two: seq<Statement>, three: seq<Statement>, now: Time)
    requires 1 <= |one| && |two| == |one| + 1 && |three| == |one| + 2 && two[..|one|] == one && three[..|two|] == two
    requires LeaseCounts(r, start, one, now)
    ensures forall e, o, c, n ::
              LeaseCounts(r.(expiredUpload := e, rejectedOrphanObject := o, confirmedWithoutJob := c, orphanJob := n), start, three, now)
    ensures three[|one|] == two[|one|] && forall k | 0 <= k < |one| :: three[k] == one[k]
  {
    assert three[..1] == one[..1];
    assert forall k | 0 <= k < |one| :: three[..|two|][k] == two[..|one|][k];
  }

  lemma FirstCountsHold(r: Report, start: State, run3: seq<Statement>, run4: seq<Statement>, run: seq<Statement>, now: Time)
    requires |run3| == 3 && |run4| == 4 && |run| == 5 && run4[..3] == run3 && run[..4] == run4
    requires LeaseCounts(r, start, run3, now) && r.expiredUpload == |run3[1].batch| && r.rejectedOrphanObject == |run3[2].batch|
    ensures FirstCounts(r.(confirmedWithoutJob := |run4[3].batch|, orphanJob := |run[4].batch|), start, run, now)
  {
    LeaseCountsStay(r, start, run3, run4, run, now);
  }

  lemma LastCountsHold(start: State, run5: seq<Statement>, run6: seq<Statement>, run7: seq<Statement>, run: seq<Statement>,
                       now: Time, wrong: nat)
    requires |run5| == 5 && |run6| == 6 && |run7| == 7 && |run| == 8 && run6[..5] == run5 && run7[..6] == run6 && run[..7] == run7
    requires wrong == |Misshown(Execute(start, run5, now), run6[5].batch)|
    ensures run[..5] == run5
    ensures LastCounts(Report(0, 0, 0, 0, 0, 0, 0, wrong, |run7[6].batch|, |run[7].batch|), start, run, now)
  {
    assert run[..5] == run7[..5] == run6[..5];
    assert run[5] == run7[5] == run6[5] && run[6] == run7[6];
  }

  lemma ReportsOfHalves(first: Report, second: Report, start: State, run5: seq<Statement>, run: seq<Statement>, now: Time)
    requires |run5| == 5 && |run| == |ORDER| && run[..5] == run5
    requires FirstCounts(first, start, run5, now) && LastCounts(second, start, run, now)
    ensures Reports(Halves(first, second), start, run, now)
  {
    assert run[..1] == run5[..1];
    forall k | 0 <= k < 5 ensures run[k] == run5[k] {
      assert run[..5][k] == run[k];
    }
  }

  lemma {:induction false} RunGrows(s: State, run: seq<Statement>, st: Statement, held: seq<set<Id>>, h: set<Id>, now: Time)
    requires |held| == |run| && Legal(s, run, now) && Taken(s, run, held, now)
    requires Takes(Execute(s, run, now), st.phase, h, st.batch, now)
    ensures Legal(s, run + [st], now) && Taken(s, run + [st], held + [h], now)
    ensures Execute(s, run + [st], now) == Exec(Execute(s, run, now), st.phase, st.batch, st.rolls, now)
    decreases |run|
  {
    if run == [] {
      assert run + [st] == [st] && held + [h] == [h];
      RunOfOne(s, st, h, now);
    } else {
      var next := Exec(s, run[0].phase, run[0].batch, run[0].rolls, now);
      RunGrows(next, run[1..], st, held[1..], h, now);
      RunPrepends(s, run[0], run[1..] + [st], held[0], held[1..] + [h], next, now);
      TailOfAppend(run, st);
      TailOfAppend(held, h);
    }
  }

  lemma RunPrepends(s: State, first: Statement, rest: seq<Statement>, h: set<Id>, held: seq<set<Id>>, next: State, now: Time)
    requires next == Exec(s, first.phase, first.batch, first.rolls, now)
    requires Takes(s, first.phase, h, first.batch, now) && Legal(next, rest, now) && Taken(next, rest, held, now)
    ensures Legal(s, [first] + rest, now) && Taken(s, [first] + rest, [h] + held, now)
    ensures Execute(s, [first] + rest, now) == Execute(next, rest, now)
  {
    assert ([first] + rest)[1..] == rest && ([h] + held)[1..] == held;
    TakesCandidates(s, first.phase, h, first.batch, now);
  }

  lemma ProgressGrows(start: State, run: seq<Statement>, st: Statement, held: seq<set<Id>>, h: set<Id>, now: Time, contents: State)
    requires Progress(start, run, held, now, contents) && |run| < |ORDER| && st.phase == ORDER[|run|]
    requires Takes(contents, st.phase, h, st.batch, now)
    ensures Progress(start, run + [st], held + [h], now, Exec(contents, st.phase, st.batch, st.rolls, now))
  {
    InOrderGrows(run, st);
    RunGrows(start, run, st, held, h, now);
  }

  lemma RunOfOne(s: State, st: Statement, h: set<Id>, now: Time)
    requires Takes(s, st.phase, h, st.batch, now)
    ensures Legal(s, [st], now) && Taken(s, [st], [h], now)
    ensures Execute(s, [st], now) == Exec(s, st.phase, st.batch, st.rolls, now)
  {
    assert [st][1..] == [] && [h][1..] == [];
    var t := Exec(s, st.phase, st.batch, st.rolls, now);
    assert Execute(t, [], now) == t && Legal(t, [], now) && Taken(t, [], [], now);
    TakesCandidates(s, st.phase, h, st.batch, now);
  }

  lemma TakesCandidates(s: State, p: Phase, h: set<Id>, batch: set<Id>, now: Time)
    requires Takes(s, p, h, batch, now)
    ensures batch <= Candidates(s, p, now)
  {
  }

  /** Every recovered lease ends in one of the three reported states. */
  lemma RecoveredSplit(s: State, batch: set<Id>, rolls: map<Id, Jitter>, now: Time)
    requires batch <= Candidates(s, Leases, now)
    ensures var t := Exec(s, Leases, batch, rolls, now);
            StatusCount(t, batch, FailedRetryable) + StatusCount(t, batch, FailedFinal) + StatusCount(t, batch, Cancelled) == |batch|
  {
    var t := RecoverLeases(s, batch, rolls, now);
    RecoveredStatuses(s, batch, rolls, now);
    SplitByStatus(t, batch);
  }

  lemma SplitByStatus(t: State, batch: set<Id>)
    requires forall id | id in batch :: id in t.jobs
               && (t.jobs[id].status.FailedRetryable? || t.jobs[id].status.FailedFinal? || t.jobs[id].status.Cancelled?)
    ensures StatusCount(t, batch, FailedRetryable) + StatusCount(t, batch, FailedFinal) + StatusCount(t, batch, Cancelled) == |batch|
  {
    var retryable, final, cancelled := WithStatus(t, batch, FailedRetryable), WithStatus(t, batch, FailedFinal), WithStatus(t, batch, Cancelled);
    forall id ensures id in batch <==> id in (retryable + final) + cancelled {
    }
    assert batch == (retryable + final) + cancelled;
    ThreeParts(retryable, final, cancelled);
  }

  lemma ThreeParts(a: set<Id>, b: set<Id>, c: set<Id>)
    requires a !! b && (a + b) !! c
    ensures |(a + b) + c| == |a| + |b| + |c|
  {
  }

  lemma RecoveredStatus(j: Job, jitter: Jitter, now: Time)
    requires LeaseExpired(j, now)
    ensures var after := RecoverLease(j, jitter, now).value.status; after.FailedRetryable? || after.FailedFinal? || after.Cancelled?
  {
  }

  lemma RecoveredStatuses(s: State, batch: set<Id>, rolls: map<Id, Jitter>, now: Time)
    requires batch <= Candidates(s, Leases, now)
    ensures var t := RecoverLeases(s, batch, rolls, now);
            forall id | id in batch :: id in t.jobs
              && (t.jobs[id].status.FailedRetryable? || t.jobs[id].status.FailedFinal? || t.jobs[id].status.Cancelled?)
  {
    var rows := RecoverRows(s.jobs, batch, rolls, now);
    RecoverRowsShape(s, batch, rolls, now);
    UpdateJobsRows(s, rows, now);
    forall id | id in batch
      ensures id in s.jobs && (rows[id].status.FailedRetryable? || rows[id].status.FailedFinal? || rows[id].status.Cancelled?)
    {
      assert LeaseDue(s.jobs, id, now);
      RecoveredStatus(s.jobs[id], if id in rolls then rolls[id] else Roll(0, 0.0), now);
    }
  }

  /** When nobody else holds rows, the batches PostgreSQL takes leave no phase with candidates untouched, so the
      bound on busy passes applies to real calls. */
  lemma {:induction false} UnheldRunsAreEager(s: State, run: seq<Statement>, held: seq<set<Id>>, now: Time)
    requires |held| == |run| && Taken(s, run, held, now) && forall n | 0 <= n < |held| :: held[n] == {}
    ensures Eager(s, run, now)
    decreases |run|
  {
    if run != [] {
      var candidates := Candidates(s, run[0].phase, now);
      assert candidates - held[0] == candidates;
      if candidates != {} {
        var id :| id in candidates;
        assert |candidates| > 0;
      }
      UnheldRunsAreEager(Exec(s, run[0].phase, run[0].batch, run[0].rolls, now), run[1..], held[1..], now);
    }
  }

  /** The statements of a pass from the n-th on, with no row held by others. */
  predicate Unheld(run: seq<Statement>, held: seq<set<Id>>, rolls: map<Id, Jitter>, n: nat)
    requires n <= |ORDER|
  {
    && |run| == |held| == |ORDER| - n
    && forall k | 0 <= k < |run| :: run[k].phase == ORDER[n + k] && run[k].rolls == rolls && held[k] == {}
  }

  lemma StillUnheld(run: seq<Statement>, held: seq<set<Id>>, rolls: map<Id, Jitter>, n: nat)
    requires n < |ORDER| && Unheld(run, held, rolls, n)
    ensures Unheld(run[1..], held[1..], rolls, n + 1)
  {
  }

  /** And when no phase of a pass meets more than a hundred candidates, the real pass is the unlimited one. */
  lemma {:induction false} SmallPassIsFull(s: State, run: seq<Statement>, held: seq<set<Id>>, rolls: map<Id, Jitter>, n: nat, now: Time)
    requires n <= |ORDER| && Unheld(run, held, rolls, n)
    requires Taken(s, run, held, now) && Small(s, n, rolls, now)
    ensures Execute(s, run, now) == FullFrom(s, n, rolls, now)
    decreases |run|
  {
    if run != [] {
      FirstIsFull(s, run, held, rolls, n, now);
      StillUnheld(run, held, rolls, n);
      SmallPassIsFull(Full(s, ORDER[n], rolls, now), run[1..], held[1..], rolls, n + 1, now);
    }
  }

  lemma FirstIsFull(s: State, run: seq<Statement>, held: seq<set<Id>>, rolls: map<Id, Jitter>, n: nat, now: Time)
    requires n < |ORDER| && Unheld(run, held, rolls, n)
    requires Taken(s, run, held, now) && Small(s, n, rolls, now)
    ensures var next := Full(s, ORDER[n], rolls, now);
            && Exec(s, run[0].phase, run[0].batch, run[0].rolls, now) == next
            && Taken(next, run[1..], held[1..], now) && Small(next, n + 1, rolls, now)
  {
    TakesAll(s, ORDER[n], run[0].batch, now);
  }

  lemma TakesAll(s: State, p: Phase, batch: set<Id>, now: Time)
    requires Takes(s, p, {}, batch, now) && |Candidates(s, p, now)| <= LIMIT
    ensures batch == Candidates(s, p, now)
  {
    var candidates := Candidates(s, p, now);
    assert candidates - {} == candidates;
    WholeBatch(candidates, batch);
  }

  lemma WholeBatch(candidates: set<Id>, batch: set<Id>)
    requires batch <= candidates && |batch| == |candidates|
    ensures batch == candidates
  {
    assert candidates == batch + (candidates - batch);
    assert |candidates - batch| == 0;
  }

  predicate Small(s: State, n: nat, rolls: map<Id, Jitter>, now: Time)
    requires n <= |ORDER|
    decreases |ORDER| - n
  {
    n < |ORDER| ==> |Candidates(s, ORDER[n], now)| <= LIMIT && Small(Full(s, ORDER[n], rolls, now), n + 1, rolls, now)
  }
}
