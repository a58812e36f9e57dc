/** `claim_ingestion_job` as PostgreSQL runs it: argument checks, the cursor over ready tenants in
    fairness order with a lock attempt each, and the update of the tenant's first job; together
    with the other statements of the queue, each over the table of jobs. */
module Queue {
  import opened Support
  import opened Jobs
  import JobLaws
  import JobRuns
  import TenantCap

  type Table = map<Id, Job>

  // ---- the order in which tenants and jobs are served -------------------------------------

  function ClaimableSet(jobs: Table, org: Org, sources: set<Source>, now: Time): set<Id> {
    set id | id in jobs && jobs[id].org == org && Claimable(jobs[id], sources, now)
  }

  predicate Ready(jobs: Table, org: Org, sources: set<Source>, now: Time) {
    && (exists id | id in jobs :: jobs[id].org == org && Claimable(jobs[id], sources, now))
    && |TenantCap.LiveSet(jobs, org, now)| < TENANT_CAP
  }

  function ReadyTenants(jobs: Table, sources: set<Source>, now: Time): set<Org> {
    set id | id in jobs && Ready(jobs, jobs[id].org, sources, now) :: jobs[id].org
  }

  function ClaimTimes(jobs: Table, org: Org): set<Time> {
    set id | id in jobs && jobs[id].org == org && jobs[id].lastClaimedAt.Some? :: jobs[id].lastClaimedAt.value
  }

  /** max(last_claimed_at) over all the tenant's jobs, claimable or not. */
  function LastClaimed(jobs: Table, org: Org): Option<Time> {
    if ClaimTimes(jobs, org) == {} then None else Some(MaxOf(ClaimTimes(jobs, org)))
  }

  datatype Key = Key(last: Option<Time>, next: Time, created: Time, org: Org)

  predicate LastBefore(a: Option<Time>, b: Option<Time>) {
    b.Some? && (a.None? || a.value < b.value)
  }

  /** `last_claimed_at ASC NULLS FIRST, next_attempt_at, created_at, organization_id` */
  predicate ServedBefore(a: Key, b: Key) {
    || LastBefore(a.last, b.last)
    || (a.last == b.last && (a.next < b.next || (a.next == b.next && (a.created < b.created || (a.created == b.created && a.org <= b.org)))))
  }

  function NextAttempts(jobs: Table, ids: set<Id>): (times: set<Time>)
    requires forall id | id in ids :: id in jobs && jobs[id].nextAttemptAt.Some?
    ensures ids != {} ==> times != {}
  {
    var times := set id | id in ids :: jobs[id].nextAttemptAt.value;
    assert forall id | id in ids :: jobs[id].nextAttemptAt.value in times;
    times
  }

  function Creations(jobs: Table, ids: set<Id>): (times: set<Time>)
    requires forall id | id in ids :: id in jobs
    ensures ids != {} ==> times != {}
  {
    var times := set id | id in ids :: jobs[id].createdAt;
    assert forall id | id in ids :: jobs[id].createdAt in times;
    times
  }

  function TenantKey(jobs: Table, org: Org, sources: set<Source>, now: Time): (key: Key)
    requires Ready(jobs, org, sources, now)
    ensures key.last == LastClaimed(jobs, org) && key.org == org
  {
    var ids := ClaimableSet(jobs, org, sources, now);
    assert ids != {} by {
      var id :| id in jobs && jobs[id].org == org && Claimable(jobs[id], sources, now);
      assert id in ids;
    }
    Key(LastClaimed(jobs, org), MinOf(NextAttempts(jobs, ids)), MinOf(Creations(jobs, ids)), org)
  }

  /** Beyond the last claim a tenant sorts by the earliest attempt and the earliest creation among its claimable jobs. */
  lemma TenantKeyIsEarliest(jobs: Table, org: Org, sources: set<Source>, now: Time, id: Id)
    requires Ready(jobs, org, sources, now) && id in ClaimableSet(jobs, org, sources, now)
    ensures var key := TenantKey(jobs, org, sources, now);
            && key.next <= jobs[id].nextAttemptAt.value && key.created <= jobs[id].createdAt
            && (exists k | k in ClaimableSet(jobs, org, sources, now) :: jobs[k].nextAttemptAt == Some(key.next))
            && (exists k | k in ClaimableSet(jobs, org, sources, now) :: jobs[k].createdAt == key.created)
  {
    var ids := ClaimableSet(jobs, org, sources, now);
    var times, births := NextAttempts(jobs, ids), Creations(jobs, ids);
    assert jobs[id].nextAttemptAt.value in times && jobs[id].createdAt in births;
    var a :| a in ids && jobs[a].nextAttemptAt.value == MinOf(times);
    var b :| b in ids && jobs[b].createdAt == MinOf(births);
  }

  /** The rows of the cursor: every ready tenant with its sort key. */
  function ReadyKeys(jobs: Table, sources: set<Source>, now: Time): (keys: map<Org, Key>)
    ensures forall org :: org in keys <==> org in ReadyTenants(jobs, sources, now)
    ensures forall org | org in keys :: keys[org].last == LastClaimed(jobs, org) && keys[org].org == org
  {
    map org | org in ReadyTenants(jobs, sources, now) :: TenantKey(jobs, org, sources, now)
  }

  /** The first of some ready tenants in fairness order. */
  predicate FirstTenant(keys: map<Org, Key>, candidates: set<Org>, org: Org)
    requires candidates <= keys.Keys
  {
    org in candidates && forall other | other in candidates :: ServedBefore(keys[org], keys[other])
  }

  /** `next_attempt_at, created_at, id` */
  predicate JobBefore(jobs: Table, a: Id, b: Id)
    requires a in jobs && b in jobs && jobs[a].nextAttemptAt.Some? && jobs[b].nextAttemptAt.Some?
  {
    var x, y := jobs[a].nextAttemptAt.value, jobs[b].nextAttemptAt.value;
    x < y || (x == y && (jobs[a].createdAt < jobs[b].createdAt || (jobs[a].createdAt == jobs[b].createdAt && a <= b)))
  }

  predicate FirstJob(jobs: Table, candidates: set<Id>, id: Id)
    requires forall k | k in candidates :: k in jobs && jobs[k].nextAttemptAt.Some?
  {
    id in candidates && forall other | other in candidates :: JobBefore(jobs, id, other)
  }

  lemma {:induction false} FirstTenantExists(keys: map<Org, Key>, candidates: set<Org>)
    requires candidates <= keys.Keys && |candidates| > 0
    requires forall org | org in keys :: keys[org].org == org
    ensures exists org :: FirstTenant(keys, candidates, org)
  {
    var x :| x in candidates;
    var rest := candidates - {x};
    assert forall other | other in candidates :: other == x || other in rest;
    if |rest| == 0 {
      assert FirstTenant(keys, candidates, x);
    } else {
      FirstTenantExists(keys, rest);
      var y :| FirstTenant(keys, rest, y);
      var first := if ServedBefore(keys[x], keys[y]) then x else y;
      assert FirstTenant(keys, candidates, first);
    }
  }

  lemma {:induction false} FirstJobExists(jobs: Table, candidates: set<Id>)
    requires |candidates| > 0 && forall k | k in candidates :: k in jobs && jobs[k].nextAttemptAt.Some?
    ensures exists id :: FirstJob(jobs, candidates, id)
  {
    var x :| x in candidates;
    var rest := candidates - {x};
    assert forall other | other in candidates :: other == x || other in rest;
    if |rest| == 0 {
      assert FirstJob(jobs, candidates, x);
    } else {
      FirstJobExists(jobs, rest);
      var y :| FirstJob(jobs, rest, y);
      var first := if JobBefore(jobs, x, y) then x else y;
      assert FirstJob(jobs, candidates, first);
    }
  }

  // ---- the arguments ------------------------------------------------------------------------

  /** The parameters of the function, each of which may be NULL. */
  datatype Args = Args(
    workerId: Option<string>, leaseToken: Option<string>, sources: Option<seq<string>>,
    leaseSeconds: Option<int>, maxAttempts: Option<int>, maxRetries: Option<int>, tenantCap: Option<int>)

  datatype ClaimError =
    | InvalidWorkerId | InvalidLeaseToken | NoSource | UnsupportedSource
    | WrongLease | WrongAttempts | WrongRetries | WrongCap | LeaseStateViolated

  function SourceName(s: Source): string {
    match s
    case ManualXml => "manual_xml"
    case ManualZip => "manual_zip"
    case SatPackage => "sat_package"
  }

  const SOURCE_NAMES: set<string> := {"manual_xml", "manual_zip", "sat_package"}

  function SourcesOf(names: seq<string>): set<Source> {
    set s: Source | SourceName(s) in names
  }

  /** The first check that fails, in the order they are written. A NULL lease is not caught here:
      `NULL <> 90` is not true. */
  function Rejected(a: Args): Option<ClaimError> {
    if a.workerId.None? || !ValidId(a.workerId.value) then Some(InvalidWorkerId)
    else if a.leaseToken.None? || !ValidId(a.leaseToken.value) || a.leaseToken == a.workerId then Some(InvalidLeaseToken)
    else if a.sources.None? || a.sources.value == [] then Some(NoSource)
    else if exists k | 0 <= k < |a.sources.value| :: a.sources.value[k] !in SOURCE_NAMES then Some(UnsupportedSource)
    else if a.leaseSeconds.Some? && a.leaseSeconds.value != LEASE_SECONDS then Some(WrongLease)
    else if a.maxAttempts != Some(MAX_ATTEMPTS) then Some(WrongAttempts)
    else if a.maxRetries != Some(MAX_RETRIES) then Some(WrongRetries)
    else if a.tenantCap != Some(TENANT_CAP) then Some(WrongCap)
    else None
  }

  // ---- what a claim is ------------------------------------------------------------------------

  /** The rows of the second statement: it counts the tenant's live leases again before it looks for a job. */
  function CandidatesOf(jobs: Table, org: Org, sources: set<Source>, heldRows: set<Id>, now: Time): set<Id> {
    if |TenantCap.LiveSet(jobs, org, now)| < TENANT_CAP then ClaimableSet(jobs, org, sources, now) - heldRows else {}
  }

  ghost predicate ClaimsFor(before: Table, after: Table, org: Org, sources: set<Source>, heldRows: set<Id>,
                            worker: string, token: string, now: Time, picked: Option<Id>)
  {
    var candidates := CandidatesOf(before, org, sources, heldRows, now);
    if |candidates| == 0 then picked == None && after == before
    else && picked.Some? && FirstJob(before, candidates, picked.value)
         && after == before[picked.value := Claim(before[picked.value], worker, token, now)]
  }

  /** The effect of one claim on the table when `heldTenants` are being claimed by others and
      `heldRows` are locked by others: the first free tenant in fairness order, and in it the first
      free job in queue order, or nothing. */
  ghost predicate Claims(before: Table, after: Table, sources: set<Source>, heldTenants: set<Org>, heldRows: set<Id>,
                         worker: string, token: string, now: Time, picked: Option<Id>)
  {
    var keys := ReadyKeys(before, sources, now);
    var free := keys.Keys - heldTenants;
    if |free| == 0 then picked == None && after == before
    else exists org :: FirstTenant(keys, free, org) && ClaimsFor(before, after, org, sources, heldRows, worker, token, now, picked)
  }

  /** The cursor loop: try the tenants' locks in fairness order and stop at the first one obtained. */
  method FirstFreeTenant(keys: map<Org, Key>, heldTenants: set<Org>) returns (chosen: Option<Org>)
    requires forall org | org in keys :: keys[org].org == org
    ensures chosen.None? <==> |keys.Keys - heldTenants| == 0
    ensures chosen.Some? ==> FirstTenant(keys, keys.Keys - heldTenants, chosen.value)
  {
    var remaining := keys.Keys;
    chosen := None;
    while |remaining| > 0 && chosen.None?
      invariant remaining <= keys.Keys
      invariant chosen.None? ==> keys.Keys - heldTenants <= remaining
      invariant chosen.Some? ==> FirstTenant(keys, keys.Keys - heldTenants, chosen.value)
      decreases |remaining|
    {
      FirstTenantExists(keys, remaining);
      var org :| org in remaining && FirstTenant(keys, remaining, org);
      if org !in heldTenants {
        chosen := Some(org);
      }
      remaining := remaining - {org};
    }
    if chosen.None? {
      SubsetCard(keys.Keys - heldTenants, remaining);
    }
  }

  /** The outcome of the statements: a claim, nothing to claim, or an update undone by the lease CHECK. */
  ghost predicate ClaimOutcome(before: Table, after: Table, sources: set<Source>, heldTenants: set<Org>, heldRows: set<Id>,
                               worker: string, token: string, leaseGiven: bool, now: Time, r: Result<Option<Id>, ClaimError>)
  {
    match r
    case Err(error) => error.LeaseStateViolated? && !leaseGiven && after == before
    case Ok(picked) =>
      && Claims(before, after, sources, heldTenants, heldRows, worker, token, now, picked)
      && (picked.Some? ==> leaseGiven)
  }

  // ---- the claim on the columns of the rows ---------------------------------------------------------

  /** A tenant's jobs that are with a worker, cancelled or not, and within their lease. */
  function Running(jobs: Table, org: Org, now: Time): set<Id> {
    set i | i in jobs && jobs[i].org == org && (jobs[i].status.Processing? || jobs[i].status.CancelRequested?)
         && jobs[i].leaseExpiresAt.Some? && jobs[i].leaseExpiresAt.value > now
  }

  ghost predicate AtMostFour(jobs: Table, now: Time) {
    forall k | k in jobs ::
      |Running(jobs, jobs[k].org, now)| <= 4
  }

  /** The picked job waited, was due, was not cancelled, had granted at most three retries, was of an accepted source, and neither it
      nor its tenant was held; its tenant had fewer than four running jobs. */
  ghost predicate PickLaw(before: Table, sources: set<Source>, heldTenants: set<Org>, heldRows: set<Id>, now: Time, id: Id) {
    && id in before && id !in heldRows && before[id].org !in heldTenants
    && (before[id].status.Queued? || before[id].status.FailedRetryable?)
    && before[id].nextAttemptAt.Some? && before[id].nextAttemptAt.value <= now
    && before[id].cancelRequestedAt.None? && before[id].retries <= 3 && before[id].source in sources
    && |Running(before, before[id].org, now)| < 4
  }

  /** No job of the same tenant that could have been picked was due earlier, or as early and is older, or as old with a smaller id. */
  ghost predicate FirstLaw(before: Table, sources: set<Source>, heldRows: set<Id>, now: Time, id: Id)
    requires id in before && before[id].nextAttemptAt.Some?
  {
    forall k | k in before && before[k].org == before[id].org && k !in heldRows
            && (before[k].status.Queued? || before[k].status.FailedRetryable?)
            && before[k].nextAttemptAt.Some? && before[k].nextAttemptAt.value <= now
            && before[k].cancelRequestedAt.None? && before[k].retries <= 3 && before[k].source in sources ::
      || before[id].nextAttemptAt.value < before[k].nextAttemptAt.value
      || (before[id].nextAttemptAt.value == before[k].nextAttemptAt.value
          && (before[id].createdAt < before[k].createdAt || (before[id].createdAt == before[k].createdAt && id <= k)))
  }

  /** The claimed row: one more attempt, in the hands of the worker for exactly ninety seconds. */
  predicate ClaimedRow(was: Job, row: Job, worker: string, token: string, now: Time) {
    && row.status.Processing? && row.attempts == was.attempts + 1 && row.retries == was.retries
    && row.workerId == Some(worker) && row.lockedBy == Some(token) && row.leaseExpiresAt == Some(now + 90_000_000)
    && row.heartbeatAt == Some(now) && row.lastClaimedAt == Some(now)
    && row.startedAt == (if was.startedAt.Some? then was.startedAt else Some(now))
    && row.nextAttemptAt.None? && row.completedAt.None? && row.updatedAt == now && row.version == was.version + 1
    && row.org == was.org && row.source == was.source && row.uploadId == was.uploadId && row.rootObject == was.rootObject
    && row.counters == was.counters && row.reconciledAt == was.reconciledAt && row.cancelRequestedAt == was.cancelRequestedAt
    && row.lastErrorCode == was.lastErrorCode && row.createdAt == was.createdAt
  }

  /** Nothing is claimed, with nothing held, only if every tenant with a job to claim has four running ones. */
  ghost predicate NothingLaw(before: Table, sources: set<Source>, now: Time) {
    forall k | k in before && (before[k].status.Queued? || before[k].status.FailedRetryable?)
            && before[k].nextAttemptAt.Some? && before[k].nextAttemptAt.value <= now
            && before[k].cancelRequestedAt.None? && before[k].retries <= 3 && before[k].source in sources ::
      |Running(before, before[k].org, now)| >= 4
  }

  /** What one claim does, row by row. */
  ghost predicate ClaimLaw(before: Table, after: Table, sources: set<Source>, heldTenants: set<Org>, heldRows: set<Id>,
                           worker: string, token: string, now: Time, picked: Option<Id>)
  {
    && (picked.None? ==> after == before && (heldTenants == {} && heldRows == {} ==> NothingLaw(before, sources, now)))
    && (picked.Some? ==>
          && PickLaw(before, sources, heldTenants, heldRows, now, picked.value)
          && FirstLaw(before, sources, heldRows, now, picked.value)
          && after.Keys == before.Keys && ClaimedRow(before[picked.value], after[picked.value], worker, token, now)
          && forall k | k in before && k != picked.value :: after[k] == before[k])
    && (AtMostFour(before, now) ==> AtMostFour(after, now))
  }

  /** The set the cap counts, on the columns. */
  lemma LiveColumns(jobs: Table, org: Org, now: Time)
    ensures TenantCap.LiveSet(jobs, org, now) == Running(jobs, org, now)
  {
  }

  lemma ReadyOnColumns(jobs: Table, k: Id, sources: set<Source>, now: Time)
    requires k in jobs && Claimable(jobs[k], sources, now)
    ensures Ready(jobs, jobs[k].org, sources, now)
       <==> |Running(jobs, jobs[k].org, now)| < 4
  {
    LiveColumns(jobs, jobs[k].org, now);
  }

  lemma NothingOnColumns(jobs: Table, sources: set<Source>, now: Time)
    requires |ReadyKeys(jobs, sources, now).Keys| == 0
    ensures NothingLaw(jobs, sources, now)
  {
    forall k | k in jobs && Claimable(jobs[k], sources, now) ensures |Running(jobs, jobs[k].org, now)| >= 4 {
      ReadyOnColumns(jobs, k, sources, now);
      NobodyReady(jobs, jobs[k].org, sources, now);
    }
  }

  lemma NobodyReady(jobs: Table, org: Org, sources: set<Source>, now: Time)
    requires |ReadyKeys(jobs, sources, now).Keys| == 0
    ensures !Ready(jobs, org, sources, now)
  {
    if Ready(jobs, org, sources, now) {
      ReadyIsListed(jobs, org, sources, now);
      assert false;
    }
  }

  lemma ClaimKeepsFour(before: Table, id: Id, row: Job, now: Time)
    requires id in before && row.org == before[id].org && AtMostFour(before, now) && |Running(before, before[id].org, now)| < 4
    ensures AtMostFour(before[id := row], now)
  {
    var after := before[id := row];
    forall k | k in after ensures |Running(after, after[k].org, now)| <= 4 {
      if after[k].org == row.org {
        SubsetCard(Running(after, row.org, now), Running(before, row.org, now) + {id});
      } else {
        assert k in before && before[k] == after[k];
        SubsetCard(Running(after, after[k].org, now), Running(before, before[k].org, now));
      }
    }
  }

  lemma PickOnColumns(before: Table, sources: set<Source>, heldTenants: set<Org>, heldRows: set<Id>, now: Time, org: Org, id: Id)
    requires FirstTenant(ReadyKeys(before, sources, now), ReadyKeys(before, sources, now).Keys - heldTenants, org)
    requires FirstJob(before, CandidatesOf(before, org, sources, heldRows, now), id)
    ensures PickLaw(before, sources, heldTenants, heldRows, now, id) && FirstLaw(before, sources, heldRows, now, id)
  {
    LiveColumns(before, org, now);
    FirstOnColumns(before, sources, heldRows, now, org, id);
  }

  /** What the second statement may pick, on the columns. */
  lemma TenantOnColumns(jobs: Table, org: Org, sources: set<Source>, heldRows: set<Id>, now: Time)
    ensures forall id | FirstJob(jobs, CandidatesOf(jobs, org, sources, heldRows, now), id) ::
              PickLaw(jobs, sources, {}, heldRows, now, id) && FirstLaw(jobs, sources, heldRows, now, id) && jobs[id].org == org
    ensures |CandidatesOf(jobs, org, sources, heldRows, now)| == 0 ==>
              |Running(jobs, org, now)| >= 4 || forall k | k in jobs && k !in heldRows :: !WaitsFor(jobs[k], org, sources, now)
  {
    LiveColumns(jobs, org, now);
    var candidates := CandidatesOf(jobs, org, sources, heldRows, now);
    forall id | FirstJob(jobs, candidates, id)
      ensures PickLaw(jobs, sources, {}, heldRows, now, id) && FirstLaw(jobs, sources, heldRows, now, id) && jobs[id].org == org
    {
      FirstOnColumns(jobs, sources, heldRows, now, org, id);
    }
    if |candidates| == 0 && |Running(jobs, org, now)| < 4 {
      forall k | k in jobs && k !in heldRows ensures !WaitsFor(jobs[k], org, sources, now) {
        assert k !in candidates;
      }
    }
  }

  lemma FirstOnColumns(before: Table, sources: set<Source>, heldRows: set<Id>, now: Time, org: Org, id: Id)
    requires FirstJob(before, CandidatesOf(before, org, sources, heldRows, now), id)
    ensures FirstLaw(before, sources, heldRows, now, id)
  {
    forall k | k in before && before[k].org == before[id].org && k !in heldRows && Claimable(before[k], sources, now)
      ensures JobBefore(before, id, k)
    {
      assert k in CandidatesOf(before, org, sources, heldRows, now);
    }
  }

  /** The claim as the statements make it obeys the law of the columns. */
  lemma ClaimObeysLaw(before: Table, after: Table, sources: set<Source>, heldTenants: set<Org>, heldRows: set<Id>,
                      worker: string, token: string, now: Time, picked: Option<Id>)
    requires Claims(before, after, sources, heldTenants, heldRows, worker, token, now, picked)
    ensures ClaimLaw(before, after, sources, heldTenants, heldRows, worker, token, now, picked)
  {
    var keys := ReadyKeys(before, sources, now);
    var free := keys.Keys - heldTenants;
    if |free| == 0 {
      if heldTenants == {} {
        assert free == keys.Keys;
        NothingOnColumns(before, sources, now);
      }
    } else {
      var org :| FirstTenant(keys, free, org) && ClaimsFor(before, after, org, sources, heldRows, worker, token, now, picked);
      if picked.Some? {
        PickOnColumns(before, sources, heldTenants, heldRows, now, org, picked.value);
        SomethingLaw(before, after, sources, heldTenants, heldRows, worker, token, now, picked.value);
      } else if heldRows == {} {
        ReadyHasCandidates(before, org, sources, now);
      }
    }
  }

  lemma SomethingLaw(before: Table, after: Table, sources: set<Source>, heldTenants: set<Org>, heldRows: set<Id>,
                     worker: string, token: string, now: Time, id: Id)
    requires PickLaw(before, sources, heldTenants, heldRows, now, id) && FirstLaw(before, sources, heldRows, now, id)
    requires after == before[id := Claim(before[id], worker, token, now)]
    ensures ClaimLaw(before, after, sources, heldTenants, heldRows, worker, token, now, Some(id))
  {
    if AtMostFour(before, now) {
      ClaimKeepsFour(before, id, after[id], now);
    }
  }

  /** With no row held a ready tenant always has a job to hand out. */
  lemma ReadyHasCandidates(jobs: Table, org: Org, sources: set<Source>, now: Time)
    requires Ready(jobs, org, sources, now)
    ensures |CandidatesOf(jobs, org, sources, {}, now)| > 0
  {
    var id :| id in jobs && jobs[id].org == org && Claimable(jobs[id], sources, now);
    assert CandidatesOf(jobs, org, sources, {}, now) == ClaimableSet(jobs, org, sources, now);
    SubsetCard({id}, ClaimableSet(jobs, org, sources, now));
  }

  // ---- fairness and arguments on the columns ------------------------------------------------------------

  /** `last` is the tenant's latest claim, over all its jobs. */
  predicate LatestClaim(jobs: Table, org: Org, last: Option<Time>) {
    && (forall i | i in jobs && jobs[i].org == org && jobs[i].lastClaimedAt.Some? :: last.Some? && jobs[i].lastClaimedAt.value <= last.value)
    && (last.Some? ==> exists i | i in jobs :: jobs[i].org == org && jobs[i].lastClaimedAt == last)
  }

  /** The job waits, is due, not cancelled, within its retries and of an accepted source. */
  predicate WaitsFor(j: Job, org: Org, sources: set<Source>, now: Time) {
    && j.org == org && (j.status.Queued? || j.status.FailedRetryable?) && j.nextAttemptAt.Some? && j.nextAttemptAt.value <= now
    && j.cancelRequestedAt.None? && j.retries <= 3 && j.source in sources
  }

  /** `next` and `created` are the earliest due time and creation among the tenant's waiting jobs. */
  predicate Earliest(jobs: Table, org: Org, sources: set<Source>, now: Time, next: Time, created: Time) {
    && (forall i | i in jobs && WaitsFor(jobs[i], org, sources, now) :: next <= jobs[i].nextAttemptAt.value && created <= jobs[i].createdAt)
    && (exists i | i in jobs :: WaitsFor(jobs[i], org, sources, now) && jobs[i].nextAttemptAt.value == next)
    && (exists i | i in jobs :: WaitsFor(jobs[i], org, sources, now) && jobs[i].createdAt == created)
  }

  lemma NextOnColumns(jobs: Table, org: Org, sources: set<Source>, now: Time, next: Time, created: Time)
    requires Ready(jobs, org, sources, now) && Earliest(jobs, org, sources, now, next, created)
    ensures TenantKey(jobs, org, sources, now).next == next
  {
    var key := TenantKey(jobs, org, sources, now);
    var n :| n in jobs && WaitsFor(jobs[n], org, sources, now) && jobs[n].nextAttemptAt.value == next;
    TenantKeyIsEarliest(jobs, org, sources, now, n);
    var a :| a in ClaimableSet(jobs, org, sources, now) && jobs[a].nextAttemptAt == Some(key.next);
    assert WaitsFor(jobs[a], org, sources, now);
  }

  lemma CreatedOnColumns(jobs: Table, org: Org, sources: set<Source>, now: Time, next: Time, created: Time)
    requires Ready(jobs, org, sources, now) && Earliest(jobs, org, sources, now, next, created)
    ensures TenantKey(jobs, org, sources, now).created == created
  {
    var key := TenantKey(jobs, org, sources, now);
    var c :| c in jobs && WaitsFor(jobs[c], org, sources, now) && jobs[c].createdAt == created;
    TenantKeyIsEarliest(jobs, org, sources, now, c);
    var b :| b in ClaimableSet(jobs, org, sources, now) && jobs[b].createdAt == key.created;
    assert WaitsFor(jobs[b], org, sources, now);
  }

  lemma KeyOnColumns(jobs: Table, org: Org, sources: set<Source>, now: Time, last: Option<Time>, next: Time, created: Time)
    requires Ready(jobs, org, sources, now)
    requires LatestClaim(jobs, org, last) && Earliest(jobs, org, sources, now, next, created)
    ensures TenantKey(jobs, org, sources, now) == Key(last, next, created, org)
  {
    LastOnColumns(jobs, org, last);
    NextOnColumns(jobs, org, sources, now, next, created);
    CreatedOnColumns(jobs, org, sources, now, next, created);
  }

  lemma LastOnColumns(jobs: Table, org: Org, last: Option<Time>)
    requires LatestClaim(jobs, org, last)
    ensures LastClaimed(jobs, org) == last
  {
    var times := ClaimTimes(jobs, org);
    if last.None? {
      assert forall t :: t !in times;
      assert times == {};
    } else {
      assert last.value in times;
      assert forall t | t in times :: t <= last.value;
    }
  }

  /** The order in which tenants are served: a claim goes to a tenant that, compared with any other free tenant below four running jobs that
      has a job waiting, was never claimed or was claimed less recently; among equals it has the earlier due job, then the older one, then
      the smaller id. */
  lemma ServedInOrder(before: Table, after: Table, sources: set<Source>, heldTenants: set<Org>, heldRows: set<Id>,
                      worker: string, token: string, now: Time, picked: Id, other: Org,
                      last: Option<Time>, next: Time, created: Time, last2: Option<Time>, next2: Time, created2: Time)
    requires Claims(before, after, sources, heldTenants, heldRows, worker, token, now, Some(picked)) && picked in before
    requires other !in heldTenants && |Running(before, other, now)| < 4
    requires LatestClaim(before, before[picked].org, last) && Earliest(before, before[picked].org, sources, now, next, created)
    requires LatestClaim(before, other, last2) && Earliest(before, other, sources, now, next2, created2)
    ensures || (last.None? && last2.Some?)
            || (last.Some? && last2.Some? && last.value < last2.value)
            || (last == last2
                && (next < next2 || (next == next2 && (created < created2 || (created == created2 && before[picked].org <= other)))))
  {
    WaitingIsReady(before, other, sources, now, next2, created2);
    ReadyIsListed(before, other, sources, now);
    PickedBeats(before, after, sources, heldTenants, heldRows, worker, token, now, picked, other);
    KeyOnColumns(before, before[picked].org, sources, now, last, next, created);
    KeyOnColumns(before, other, sources, now, last2, next2, created2);
  }

  lemma WaitingIsReady(jobs: Table, org: Org, sources: set<Source>, now: Time, next: Time, created: Time)
    requires |Running(jobs, org, now)| < 4 && Earliest(jobs, org, sources, now, next, created)
    ensures Ready(jobs, org, sources, now)
  {
    var w :| w in jobs && WaitsFor(jobs[w], org, sources, now);
    ReadyOnColumns(jobs, w, sources, now);
  }

  lemma PickedBeats(before: Table, after: Table, sources: set<Source>, heldTenants: set<Org>, heldRows: set<Id>,
                    worker: string, token: string, now: Time, picked: Id, other: Org)
    requires Claims(before, after, sources, heldTenants, heldRows, worker, token, now, Some(picked)) && picked in before
    requires other in ReadyTenants(before, sources, now) && other !in heldTenants && Ready(before, other, sources, now)
    ensures var org := before[picked].org;
            Ready(before, org, sources, now) && ServedBefore(TenantKey(before, org, sources, now), TenantKey(before, other, sources, now))
  {
    PickedTenantFirst(before, after, sources, heldTenants, heldRows, worker, token, now, picked);
    ListedKey(before, before[picked].org, sources, now);
    ListedKey(before, other, sources, now);
  }

  lemma PickedTenantFirst(before: Table, after: Table, sources: set<Source>, heldTenants: set<Org>, heldRows: set<Id>,
                          worker: string, token: string, now: Time, picked: Id)
    requires Claims(before, after, sources, heldTenants, heldRows, worker, token, now, Some(picked)) && picked in before
    ensures var keys := ReadyKeys(before, sources, now);
            FirstTenant(keys, keys.Keys - heldTenants, before[picked].org)
  {
    var keys := ReadyKeys(before, sources, now);
    var org :| FirstTenant(keys, keys.Keys - heldTenants, org)
            && ClaimsFor(before, after, org, sources, heldRows, worker, token, now, Some(picked));
    assert picked in CandidatesOf(before, org, sources, heldRows, now);
  }

  lemma ListedKey(jobs: Table, org: Org, sources: set<Source>, now: Time)
    requires org in ReadyTenants(jobs, sources, now)
    ensures Ready(jobs, org, sources, now) && org in ReadyKeys(jobs, sources, now)
    ensures ReadyKeys(jobs, sources, now)[org] == TenantKey(jobs, org, sources, now)
  {
  }

  /** The arguments that pass. */
  lemma ArgumentsThatPass(a: Args)
    ensures Rejected(a).None?
       <==> && a.workerId.Some? && ValidId(a.workerId.value)
            && a.leaseToken.Some? && ValidId(a.leaseToken.value) && a.leaseToken.value != a.workerId.value
            && a.sources.Some? && |a.sources.value| > 0
            && (forall k | 0 <= k < |a.sources.value| ::
                  a.sources.value[k] == "manual_xml" || a.sources.value[k] == "manual_zip" || a.sources.value[k] == "sat_package")
            && (a.leaseSeconds == None || a.leaseSeconds == Some(90))
            && a.maxAttempts == Some(4) && a.maxRetries == Some(3) && a.tenantCap == Some(4)
  {
  }

  /** The error reported is that of the first argument that fails, in the order of the signature. */
  lemma FirstBadArgument(a: Args)
    ensures Rejected(a) == Some(InvalidWorkerId) <==> a.workerId.None? || !ValidId(a.workerId.value)
    ensures Rejected(a) == Some(WrongCap) ==> a.tenantCap != Some(4) && a.maxRetries == Some(3)
    ensures Rejected(a) == Some(WrongRetries) ==> a.maxRetries != Some(3) && a.maxAttempts == Some(4)
    ensures Rejected(a) == Some(WrongAttempts) ==> a.maxAttempts != Some(4) && (a.leaseSeconds == None || a.leaseSeconds == Some(90))
    ensures Rejected(a) == Some(WrongLease) ==> a.leaseSeconds.Some? && a.leaseSeconds != Some(90)
    ensures Rejected(a) == Some(WrongLease) || Rejected(a) == Some(UnsupportedSource) ==> a.sources.Some? && |a.sources.value| > 0
    ensures Rejected(a) == Some(NoSource) ==> (a.sources.None? || a.sources == Some([])) && a.leaseToken.Some? && a.leaseToken != a.workerId
    ensures Rejected(a) != Some(LeaseStateViolated)
  {
  }

  /** The identifiers that pass: one to 128 characters, a letter or digit first, then letters, digits, dots, underscores, colons, hyphens. */
  lemma IdsThatPass(s: string)
    ensures ValidId(s)
       <==> 1 <= |s| <= 128 && s[0] != '.' && s[0] != '_' && s[0] != ':' && s[0] != '-'
            && forall k | 0 <= k < |s| ::
                 'A' <= s[k] <= 'Z' || 'a' <= s[k] <= 'z' || '0' <= s[k] <= '9' || s[k] == '.' || s[k] == '_' || s[k] == ':' || s[k] == '-'
  {
  }

  lemma AcceptedSources(names: seq<string>)
    ensures ManualXml in SourcesOf(names) <==> "manual_xml" in names
    ensures ManualZip in SourcesOf(names) <==> "manual_zip" in names
    ensures SatPackage in SourcesOf(names) <==> "sat_package" in names
  {
  }

  /** `audit_events.action`, without its common prefix. */
  datatype Action = JobClaimed | JobCompleted | JobFailedFinal | RetryScheduled | RetryExhausted
                  | ShutdownReleased | CancelAsked | LeaseReconciled | OrphanFailed

  datatype AuditEvent = AuditEvent(job: Id, action: Action, status: Status)

  /** A claim writes its event in the same statement, and only when it claims. */
  function ClaimAudit(r: Result<Option<Id>, ClaimError>): seq<AuditEvent> {
    if r.Ok? && r.value.Some? then [AuditEvent(r.value.value, JobClaimed, Processing)] else []
  }

  /** The queue of durable jobs and its audit log. */
  class IngestionQueue {
    var jobs: Table
    var audit: seq<AuditEvent>

    constructor ()
      ensures jobs == map[] && audit == []
    {
      jobs, audit := map[], [];
    }

    /** The function after its checks. A lease that was not given makes `make_interval` yield NULL, so an update
        would violate the lease CHECK: the statement is undone. */
    method ClaimChecked(sources: set<Source>, worker: string, token: string, leaseGiven: bool,
                        heldTenants: set<Org>, heldRows: set<Id>, now: Time)
      returns (r: Result<Option<Id>, ClaimError>)
      modifies this
      ensures ClaimOutcome(old(jobs), jobs, sources, heldTenants, heldRows, worker, token, leaseGiven, now, r)
      ensures r.Ok? ==> ClaimLaw(old(jobs), jobs, sources, heldTenants, heldRows, worker, token, now, r.value)
      ensures audit == old(audit) + ClaimAudit(r)
    {
      ghost var before := jobs;
      var keys := ReadyKeys(jobs, sources, now);
      var chosen := FirstFreeTenant(keys, heldTenants);
      if chosen.None? {
        ClaimObeysLaw(before, jobs, sources, heldTenants, heldRows, worker, token, now, None);
        return Ok(None);
      }
      r := ClaimJobOf(chosen.value, sources, worker, token, leaseGiven, heldRows, now);
      if r.Ok? {
        ClaimObeysLaw(before, jobs, sources, heldTenants, heldRows, worker, token, now, r.value);
      }
    }

    /** The second statement: the tenant's first free job. */
    method ClaimJobOf(org: Org, sources: set<Source>, worker: string, token: string, leaseGiven: bool, heldRows: set<Id>, now: Time)
      returns (r: Result<Option<Id>, ClaimError>)
      modifies this
      ensures r.Err? ==> !leaseGiven && r.error.LeaseStateViolated? && jobs == old(jobs)
      ensures r.Ok? ==> ClaimsFor(old(jobs), jobs, org, sources, heldRows, worker, token, now, r.value)
      ensures r.Ok? && r.value.Some? ==> leaseGiven
      ensures r.Ok? && r.value.Some? ==>
                && PickLaw(old(jobs), sources, {}, heldRows, now, r.value.value) && old(jobs)[r.value.value].org == org
                && FirstLaw(old(jobs), sources, heldRows, now, r.value.value)
      ensures r == Ok(None) ==>
                |Running(jobs, org, now)| >= 4 || forall k | k in jobs && k !in heldRows :: !WaitsFor(jobs[k], org, sources, now)
      ensures audit == old(audit) + ClaimAudit(r)
    {
      TenantOnColumns(jobs, org, sources, heldRows, now);
      var candidates := CandidatesOf(jobs, org, sources, heldRows, now);
      if |candidates| == 0 {
        return Ok(None);
      }
      FirstJobExists(jobs, candidates);
      var id :| id in candidates && FirstJob(jobs, candidates, id);
      if !leaseGiven {
        return Err(LeaseStateViolated);
      }
      jobs := jobs[id := Claim(jobs[id], worker, token, now)];
      audit := audit + [AuditEvent(id, JobClaimed, Processing)];
      return Ok(Some(id));
    }

    method ClaimIngestionJob(a: Args, heldTenants: set<Org>, heldRows: set<Id>, now: Time)
      returns (r: Result<Option<Id>, ClaimError>)
      modifies this
      ensures Rejected(a).Some? ==> r == Err(Rejected(a).value) && jobs == old(jobs)
      ensures Rejected(a).None? ==>
                ClaimOutcome(old(jobs), jobs, SourcesOf(a.sources.value), heldTenants, heldRows,
                             a.workerId.value, a.leaseToken.value, a.leaseSeconds.Some?, now, r)
      ensures r.Ok? ==> a.workerId.Some? && a.leaseToken.Some? && a.sources.Some?
      ensures r.Ok? ==> ClaimLaw(old(jobs), jobs, SourcesOf(a.sources.value), heldTenants, heldRows, a.workerId.value, a.leaseToken.value, now, r.value)
      ensures audit == old(audit) + ClaimAudit(r)
    {
      var rejected := Rejected(a);
      if rejected.Some? {
        return Err(rejected.value);
      }
      r := ClaimChecked(SourcesOf(a.sources.value), a.workerId.value, a.leaseToken.value, a.leaseSeconds.Some?,
                        heldTenants, heldRows, now);
    }

    method HeartbeatJob(id: Id, org: Org, token: string, now: Time) returns (outcome: Beat)
      modifies this`jobs
      ensures outcome == if id in old(jobs) && old(jobs)[id].org == org then HeartbeatOutcome(old(jobs)[id], token, now) else Lost
      ensures jobs == if outcome.Renewed? then old(jobs)[id := Heartbeat(old(jobs)[id], token, now).value] else old(jobs)
      ensures id in old(jobs) && old(jobs)[id].org == org ==>
                && JobLaws.HeartbeatLaw(old(jobs)[id], token, now, if outcome.Renewed? then Some(jobs[id]) else None)
                && (outcome.CancelSeen? <==> old(jobs)[id].status.CancelRequested? && JobLaws.HeldBy(old(jobs)[id], token, now))
    {
      ghost var before := jobs;
      if id in jobs {
        JobLaws.StatementsObeyLaws(before[id], JobRuns.EHeartbeat(token), now);
      }
      outcome := Lost;
      if id in jobs && jobs[id].org == org {
        outcome := HeartbeatOutcome(jobs[id], token, now);
        var row := Heartbeat(jobs[id], token, now);
        if row.Some? {
          jobs := jobs[id := row.value];
        }
      }
    }

    /** The remaining single-row statements. `org` is the tenant of the caller's transaction; the row of another
        tenant is never touched. */
    method Execute(id: Id, org: Org, e: JobRuns.Event, now: Time) returns (changed: bool)
      requires !e.EClaim? && !e.EHeartbeat? && !e.ERecount?
      modifies this
      ensures changed == (id in old(jobs) && old(jobs)[id].org == org && JobRuns.Apply(old(jobs)[id], e, now).Some?)
      ensures jobs == if changed then old(jobs)[id := JobRuns.Apply(old(jobs)[id], e, now).value] else old(jobs)
      ensures audit == old(audit) + (if changed && !e.ESatCancel? then [AuditEvent(id, ActionOf(e, jobs[id].status), jobs[id].status)] else [])
      ensures id in old(jobs) && old(jobs)[id].org == org ==>
                JobLaws.StatementLaw(old(jobs)[id], e, now, if changed then Some(jobs[id]) else None)
      ensures changed && !e.ESatCancel? ==> |audit| == |old(audit)| + 1 && ActionLaw(e, jobs[id].status, audit[|old(audit)|].action)
    {
      changed := false;
      if id in jobs && jobs[id].org == org {
        JobLaws.StatementsObeyLaws(jobs[id], e, now);
        var row := JobRuns.Apply(jobs[id], e, now);
        if row.Some? {
          jobs := jobs[id := row.value];
          changed := true;
          if !e.ESatCancel? {
            audit := audit + [AuditEvent(id, ActionOf(e, row.value.status), row.value.status)];
          }
        }
      }
    }
  }

  /** The action each audited statement records; the SAT worker's cancellation records none here. */
  function ActionOf(e: JobRuns.Event, after: Status): Action
    requires !e.EHeartbeat? && !e.ESatCancel? && !e.ERecount?
  {
    match e
    case EComplete(_, _) => JobCompleted
    case EFailFinal(_, _) => JobFailedFinal
    case ERetry(_, _, _) => if after.FailedRetryable? then RetryScheduled else RetryExhausted
    case ERelease(_) => ShutdownReleased
    case ECancel => CancelAsked
    case ERecover(_) => LeaseReconciled
    case EFailOrphan => OrphanFailed
    case EClaim(_, _, _) => JobClaimed
  }

  /** Which action stands for which statement. */
  predicate ActionLaw(e: JobRuns.Event, after: Status, action: Action) {
    && (action.JobCompleted? <==> e.EComplete?) && (action.JobFailedFinal? <==> e.EFailFinal?)
    && (action.RetryScheduled? <==> e.ERetry? && after.FailedRetryable?) && (action.RetryExhausted? <==> e.ERetry? && !after.FailedRetryable?)
    && (action.ShutdownReleased? <==> e.ERelease?) && (action.CancelAsked? <==> e.ECancel?)
    && (action.LeaseReconciled? <==> e.ERecover?) && (action.OrphanFailed? <==> e.EFailOrphan?)
  }

  // ---- bounded bypass ---------------------------------------------------------------------------

  /** One successful claim without lock contention on tenants. */
  datatype Round = Round(before: Table, after: Table, sources: set<Source>, heldRows: set<Id>,
                         worker: string, token: string, now: Time, picked: Id)

  ghost predicate Successful(r: Round) {
    Claims(r.before, r.after, r.sources, {}, r.heldRows, r.worker, r.token, r.now, Some(r.picked))
  }

  /** The clock of this claim is later than every earlier claim. */
  predicate ClockAdvanced(r: Round) {
    forall id | id in r.before && r.before[id].lastClaimedAt.Some? :: r.before[id].lastClaimedAt.value < r.now
  }

  /** The tenant was ready and another one was served. */
  predicate Bypassed(r: Round, waiting: Org) {
    && Ready(r.before, waiting, r.sources, r.now)
    && r.picked in r.before && r.before[r.picked].org != waiting
  }

  /** What every statement but a claim does to the claim history of the table, admissions included. */
  predicate KeepsClaims(before: Table, after: Table) {
    && (forall id | id in before :: id in after && after[id].org == before[id].org && after[id].lastClaimedAt == before[id].lastClaimedAt)
    && (forall id | id in after && id !in before :: after[id].lastClaimedAt.None?)
  }

  predicate Within(jobs: Table, tenants: set<Org>) {
    forall id | id in jobs :: jobs[id].org in tenants
  }

  lemma StatementsKeepClaims(jobs: Table, id: Id, e: JobRuns.Event, now: Time)
    requires id in jobs && !e.EClaim?
    ensures KeepsClaims(jobs, jobs[id := Coalesce(JobRuns.Apply(jobs[id], e, now), jobs[id])])
  {
  }

  lemma SameLastClaimed(before: Table, after: Table, org: Org)
    requires KeepsClaims(before, after)
    ensures LastClaimed(after, org) == LastClaimed(before, org)
  {
    var a, b := ClaimTimes(before, org), ClaimTimes(after, org);
    assert forall t | t in b :: t in a;
    forall t | t in a ensures t in b {
      var id :| id in before && before[id].org == org && before[id].lastClaimedAt == Some(t);
      assert after[id].lastClaimedAt.value == t;
    }
    assert a == b;
  }

  /** What a successful claim that bypasses `waiting` amounts to for the claim history. */
  predicate Overtakes(r: Round, waiting: Org) {
    && ClockAdvanced(r)
    && r.picked in r.before && r.before[r.picked].org != waiting
    && r.after == r.before[r.picked := Claim(r.before[r.picked], r.worker, r.token, r.now)]
    && !LastBefore(LastClaimed(r.before, waiting), LastClaimed(r.before, r.before[r.picked].org))
  }

  lemma ClaimUpdates(r: Round)
    requires Successful(r)
    ensures r.picked in r.before && r.after == r.before[r.picked := Claim(r.before[r.picked], r.worker, r.token, r.now)]
  {
  }

  lemma ServedComesFirst(r: Round, waiting: Org)
    requires Successful(r) && waiting in ReadyKeys(r.before, r.sources, r.now) && r.picked in r.before
    ensures var keys := ReadyKeys(r.before, r.sources, r.now);
            var served := r.before[r.picked].org;
            served in keys && ServedBefore(keys[served], keys[waiting])
  {
    var keys := ReadyKeys(r.before, r.sources, r.now);
    var org :| FirstTenant(keys, keys.Keys - {}, org)
            && ClaimsFor(r.before, r.after, org, r.sources, r.heldRows, r.worker, r.token, r.now, Some(r.picked));
  }

  /** Fairness order put the served tenant before the waiting one, so it had not been served after it. */
  lemma BypassOvertakes(r: Round, waiting: Org)
    requires Successful(r) && ClockAdvanced(r) && Bypassed(r, waiting)
    ensures Overtakes(r, waiting)
  {
    ClaimUpdates(r);
    ReadyIsListed(r.before, waiting, r.sources, r.now);
    ServedComesFirst(r, waiting);
    ReadLast(r.before, r.before[r.picked].org, waiting, r.sources, r.now);
  }

  lemma ReadLast(jobs: Table, served: Org, waiting: Org, sources: set<Source>, now: Time)
    requires served in ReadyKeys(jobs, sources, now) && waiting in ReadyKeys(jobs, sources, now)
    requires ServedBefore(ReadyKeys(jobs, sources, now)[served], ReadyKeys(jobs, sources, now)[waiting])
    ensures !LastBefore(LastClaimed(jobs, waiting), LastClaimed(jobs, served))
  {
  }

  lemma ReadyIsListed(jobs: Table, org: Org, sources: set<Source>, now: Time)
    requires Ready(jobs, org, sources, now)
    ensures org in ReadyTenants(jobs, sources, now)
  {
    var id :| id in jobs && jobs[id].org == org && Claimable(jobs[id], sources, now);
    assert Ready(jobs, jobs[id].org, sources, now);
  }

  /** A claim makes its tenant the most recently served and leaves the others where they were. */
  lemma ClaimMovesLastClaimed(r: Round, waiting: Org, org: Org)
    requires Overtakes(r, waiting)
    ensures LastClaimed(r.after, org) == if org == r.before[r.picked].org then Some(r.now) else LastClaimed(r.before, org)
  {
    var old', new' := ClaimTimes(r.before, org), ClaimTimes(r.after, org);
    var served := r.before[r.picked].org;
    if org == served {
      assert r.after[r.picked].lastClaimedAt.value in new';
      forall t | t in new' ensures t <= r.now {
        var id :| id in r.after && r.after[id].org == org && r.after[id].lastClaimedAt == Some(t);
      }
    } else {
      assert forall id | id in r.after && r.after[id].org == org :: id in r.before && r.before[id] == r.after[id];
      assert forall id | id in r.before && r.before[id].org == org :: r.before[id] == r.after[id];
      assert forall t | t in old' :: t in new';
      assert forall t | t in new' :: t in old';
      assert old' == new';
    }
  }

  /** The tenants still entitled to go first: not served after the waiting one. */
  function Ahead(jobs: Table, tenants: set<Org>, waiting: Org): set<Org> {
    set org | org in tenants && org != waiting && !LastBefore(LastClaimed(jobs, waiting), LastClaimed(jobs, org))
  }

  /** A bypass spends one of them. */
  lemma BypassSpendsOne(r: Round, tenants: set<Org>, waiting: Org)
    requires Overtakes(r, waiting) && Within(r.before, tenants)
    ensures Ahead(r.after, tenants, waiting) == Ahead(r.before, tenants, waiting) - {r.before[r.picked].org}
    ensures r.before[r.picked].org in Ahead(r.before, tenants, waiting)
  {
    forall org ensures LastClaimed(r.after, org) == if org == r.before[r.picked].org then Some(r.now) else LastClaimed(r.before, org) {
      ClaimMovesLastClaimed(r, waiting, org);
    }
    assert LastBefore(LastClaimed(r.before, waiting), Some(r.now)) by {
      if LastClaimed(r.before, waiting).Some? {
        var t := LastClaimed(r.before, waiting).value;
        assert t in ClaimTimes(r.before, waiting);
      }
    }
  }

  lemma {:induction false} OvertakenAtMost(rounds: seq<Round>, tenants: set<Org>, waiting: Org)
    requires rounds != []
    requires forall k | 0 <= k < |rounds| :: Overtakes(rounds[k], waiting) && Within(rounds[k].before, tenants)
    requires forall k | 0 <= k < |rounds| - 1 :: KeepsClaims(rounds[k].after, rounds[k + 1].before)
    ensures |rounds| <= |Ahead(rounds[0].before, tenants, waiting)|
    decreases |rounds|
  {
    var first := rounds[0];
    var served := first.before[first.picked].org;
    BypassSpendsOne(first, tenants, waiting);
    assert |Ahead(first.after, tenants, waiting)| == |Ahead(first.before, tenants, waiting)| - 1;
    if |rounds| > 1 {
      OvertakenAtMost(rounds[1..], tenants, waiting);
      SameAhead(first.after, rounds[1].before, tenants, waiting);
    }
  }

  lemma SameAhead(before: Table, after: Table, tenants: set<Org>, waiting: Org)
    requires KeepsClaims(before, after)
    ensures Ahead(after, tenants, waiting) == Ahead(before, tenants, waiting)
  {
    forall org ensures LastClaimed(after, org) == LastClaimed(before, org) {
      SameLastClaimed(before, after, org);
    }
  }

  /** A successful claim, later than all before it, that serves another tenant although `waiting` was ready. */
  ghost predicate PassesOver(r: Round, tenants: set<Org>, waiting: Org) {
    Successful(r) && ClockAdvanced(r) && Bypassed(r, waiting) && Within(r.before, tenants)
  }

  /** Bounded bypass: over a fixed set of tenants, with any other statements between the claims, a
      tenant that stays ready is passed over fewer times than there are tenants; so it is served
      within as many successful claims as there are tenants. */
  lemma BoundedBypass(rounds: seq<Round>, tenants: set<Org>, waiting: Org)
    requires waiting in tenants
    requires forall k | 0 <= k < |rounds| :: PassesOver(rounds[k], tenants, waiting)
    requires forall k | 0 <= k < |rounds| - 1 :: KeepsClaims(rounds[k].after, rounds[k + 1].before)
    ensures |rounds| < |tenants|
  {
    forall k | 0 <= k < |rounds| ensures Overtakes(rounds[k], waiting) && Within(rounds[k].before, tenants) {
      assert PassesOver(rounds[k], tenants, waiting);
      BypassOvertakes(rounds[k], waiting);
    }
    if rounds != [] {
      OvertakenAtMost(rounds, tenants, waiting);
      FewerAhead(rounds[0].before, tenants, waiting);
    }
  }

  lemma FewerAhead(jobs: Table, tenants: set<Org>, waiting: Org)
    requires waiting in tenants
    ensures |Ahead(jobs, tenants, waiting)| < |tenants|
  {
    SubsetCard(Ahead(jobs, tenants, waiting), tenants - {waiting});
  }
}
