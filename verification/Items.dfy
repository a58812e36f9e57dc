/** The items of a job and the nine counters its row caches about them: the dirty-marking
    trigger, the full recounts, the ZIP finaliser and the SAT worker's partial recount. */
module Items {
  import opened Support
  import opened Jobs

  datatype Technical = Pending | InProgress | Done

  datatype Product = Incorporated | Duplicate | Foreign | Invalid | Unsupported | InternalError

  datatype Item = Item(
    org: Org,
    job: Id,
    objectId: Option<Id>,
    technical: Technical,
    product: Option<Product>,
    errorCode: Option<string>,
    processedAt: Option<Time>,
    updatedAt: Time,
    version: int)

  type ItemTable = map<Id, Item>
  type JobTable = map<Id, Job>

  /** The CHECK constraints on the state of an item. */
  predicate ItemChecks(i: Item) {
    && (if i.technical.Done? then i.product.Some? && i.processedAt.Some? else i.product.None? && i.processedAt.None?)
    && (i.product.Some? && !i.product.value.Incorporated? && !i.product.value.Duplicate? ==> i.errorCode.Some?)
    && (i.product.Some? && (i.product.value.Incorporated? || i.product.value.Duplicate?) ==> i.errorCode.None?)
    && i.version > 0
  }

  predicate AllChecked(items: ItemTable) {
    forall k | k in items :: ItemChecks(items[k])
  }

  // ---- aggregates ------------------------------------------------------------------------

  function OfJob(items: ItemTable, org: Org, job: Id): set<Id> {
    set k | k in items && items[k].org == org && items[k].job == job
  }

  function AtStage(items: ItemTable, org: Org, job: Id, t: Technical): set<Id> {
    set k | k in OfJob(items, org, job) && items[k].technical == t
  }

  function WithProduct(items: ItemTable, org: Org, job: Id, p: Product): set<Id> {
    set k | k in OfJob(items, org, job) && items[k].product == Some(p)
  }

  /** The aggregate every full recount computes. */
  function Count(items: ItemTable, org: Org, job: Id): Counters {
    Counters(
      |OfJob(items, org, job)|,
      |AtStage(items, org, job, Pending)|,
      |AtStage(items, org, job, InProgress)|,
      |WithProduct(items, org, job, Incorporated)|,
      |WithProduct(items, org, job, Duplicate)|,
      |WithProduct(items, org, job, Foreign)|,
      |WithProduct(items, org, job, Invalid)|,
      |WithProduct(items, org, job, Unsupported)|,
      |WithProduct(items, org, job, InternalError)|)
  }

  /** The nine counters, each against its own column of the job's items. */
  predicate ShowsCounts(c: Counters, items: ItemTable, org: Org, job: Id) {
    && c.total == |set k | k in items && items[k].org == org && items[k].job == job|
    && c.pending == |set k | k in items && items[k].org == org && items[k].job == job && items[k].technical == Pending|
    && c.processing == |set k | k in items && items[k].org == org && items[k].job == job && items[k].technical == InProgress|
    && c.incorporated == |set k | k in items && items[k].org == org && items[k].job == job && items[k].product == Some(Incorporated)|
    && c.duplicate == |set k | k in items && items[k].org == org && items[k].job == job && items[k].product == Some(Duplicate)|
    && c.foreign == |set k | k in items && items[k].org == org && items[k].job == job && items[k].product == Some(Foreign)|
    && c.invalid == |set k | k in items && items[k].org == org && items[k].job == job && items[k].product == Some(Invalid)|
    && c.unsupported == |set k | k in items && items[k].org == org && items[k].job == job && items[k].product == Some(Unsupported)|
    && c.internalError == |set k | k in items && items[k].org == org && items[k].job == job && items[k].product == Some(InternalError)|
  }

  /** The aggregate counts what its columns say. */
  lemma CountShows(items: ItemTable, org: Org, job: Id)
    ensures ShowsCounts(Count(items, org, job), items, org, job)
  {
    assert OfJob(items, org, job) == set k | k in items && items[k].org == org && items[k].job == job;
    assert AtStage(items, org, job, Pending)
        == set k | k in items && items[k].org == org && items[k].job == job && items[k].technical == Pending;
    assert AtStage(items, org, job, InProgress)
        == set k | k in items && items[k].org == org && items[k].job == job && items[k].technical == InProgress;
    assert WithProduct(items, org, job, Incorporated)
        == set k | k in items && items[k].org == org && items[k].job == job && items[k].product == Some(Incorporated);
    assert WithProduct(items, org, job, Duplicate)
        == set k | k in items && items[k].org == org && items[k].job == job && items[k].product == Some(Duplicate);
    assert WithProduct(items, org, job, Foreign)
        == set k | k in items && items[k].org == org && items[k].job == job && items[k].product == Some(Foreign);
    assert WithProduct(items, org, job, Invalid)
        == set k | k in items && items[k].org == org && items[k].job == job && items[k].product == Some(Invalid);
    assert WithProduct(items, org, job, Unsupported)
        == set k | k in items && items[k].org == org && items[k].job == job && items[k].product == Some(Unsupported);
    assert WithProduct(items, org, job, InternalError)
        == set k | k in items && items[k].org == org && items[k].job == job && items[k].product == Some(InternalError);
  }

  /** The counter named after a product. */
  function Named(c: Counters, p: Product): nat {
    match p
    case Incorporated => c.incorporated
    case Duplicate => c.duplicate
    case Foreign => c.foreign
    case Invalid => c.invalid
    case Unsupported => c.unsupported
    case InternalError => c.internalError
  }

  lemma NamedCounts(items: ItemTable, org: Org, job: Id, p: Product)
    ensures Named(Count(items, org, job), p) == |WithProduct(items, org, job, p)|
  {
  }

  function WithResult(items: ItemTable, k: Id, q: Product): ItemTable
    requires k in items
  {
    items[k := items[k].(product := Some(q))]
  }

  lemma ResultShown(items: ItemTable, k: Id, q: Product, r: Product, x: Id)
    requires k in items
    ensures var org, job := items[k].org, items[k].job;
            x in WithProduct(WithResult(items, k, q), org, job, r)
            <==> if x == k then r == q else x in WithProduct(items, org, job, r)
  {
    var org, job := items[k].org, items[k].job;
    assert x in OfJob(WithResult(items, k, q), org, job) <==> x in OfJob(items, org, job);
  }

  lemma ResultSets(items: ItemTable, k: Id, q: Product, r: Product)
    requires k in items
    ensures var org, job := items[k].org, items[k].job;
            WithProduct(WithResult(items, k, q), org, job, r)
            == if r == q then WithProduct(items, org, job, r) + {k} else WithProduct(items, org, job, r) - {k}
  {
    forall x {
      ResultShown(items, k, q, r, x);
    }
  }

  lemma ResultMoves(items: ItemTable, k: Id, p: Product, q: Product, r: Product)
    requires k in items && items[k].product == Some(p) && p != q
    ensures var org, job := items[k].org, items[k].job;
            Named(Count(WithResult(items, k, q), org, job), r)
            == Named(Count(items, org, job), r) - (if r == p then 1 else 0) + (if r == q then 1 else 0)
  {
    var org, job := items[k].org, items[k].job;
    var was := WithProduct(items, org, job, r);
    ResultSets(items, k, q, r);
    assert k in was <==> r == p;
    NamedCounts(WithResult(items, k, q), org, job, r);
    NamedCounts(items, org, job, r);
    if r == p {
      assert |was - {k}| == |was| - 1;
    } else if r == q {
      assert |was + {k}| == |was| + 1;
    } else {
      assert was - {k} == was;
    }
  }

  lemma StagesStay(items: ItemTable, k: Id, q: Product)
    requires k in items
    ensures var org, job := items[k].org, items[k].job;
            var before, after := Count(items, org, job), Count(WithResult(items, k, q), org, job);
            after.total == before.total && after.pending == before.pending && after.processing == before.processing
  {
    var org, job := items[k].org, items[k].job;
    var after := WithResult(items, k, q);
    assert OfJob(after, org, job) == OfJob(items, org, job);
    assert AtStage(after, org, job, Pending) == AtStage(items, org, job, Pending);
    assert AtStage(after, org, job, InProgress) == AtStage(items, org, job, InProgress);
  }

  /** Changing the product of one ended item moves one from the counter of the old product to that of the new, and no other counter. */
  lemma OneProductMoves(items: ItemTable, k: Id, p: Product, q: Product)
    requires k in items && items[k].product == Some(p) && p != q
    ensures var org, job := items[k].org, items[k].job;
            var before, after := Count(items, org, job), Count(WithResult(items, k, q), org, job);
            && Named(after, p) == Named(before, p) - 1 && Named(after, q) == Named(before, q) + 1
            && (forall r | r != p && r != q :: Named(after, r) == Named(before, r))
            && after.total == before.total && after.pending == before.pending && after.processing == before.processing
  {
    StagesStay(items, k, q);
    forall r ensures var org, job := items[k].org, items[k].job;
                     Named(Count(WithResult(items, k, q), org, job), r)
                     == Named(Count(items, org, job), r) - (if r == p then 1 else 0) + (if r == q then 1 else 0)
    {
      ResultMoves(items, k, p, q, r);
    }
  }

  /** The eight classes an item falls into. */
  datatype Class = Waiting | Running | Ended(product: Product)

  function ClassOf(i: Item): Class {
    if i.product.Some? then Ended(i.product.value) else if i.technical.Pending? then Waiting else Running
  }

  function InClass(items: ItemTable, org: Org, job: Id, c: Class): set<Id> {
    set k | k in OfJob(items, org, job) && ClassOf(items[k]) == c
  }

  function Unseen(items: ItemTable, org: Org, job: Id, seen: seq<Class>): set<Id> {
    set k | k in OfJob(items, org, job) && ClassOf(items[k]) !in seen
  }

  lemma Peel(items: ItemTable, org: Org, job: Id, seen: seq<Class>, c: Class)
    requires c !in seen
    ensures |Unseen(items, org, job, seen)| == |Unseen(items, org, job, seen + [c])| + |InClass(items, org, job, c)|
  {
    assert Unseen(items, org, job, seen) == Unseen(items, org, job, seen + [c]) + InClass(items, org, job, c);
  }

  const CLASSES: seq<Class> := [Waiting, Running, Ended(Incorporated), Ended(Duplicate), Ended(Foreign), Ended(Invalid),
                                Ended(Unsupported), Ended(InternalError)]

  lemma ClassesComplete(c: Class)
    ensures c in CLASSES
    ensures forall i, j | 0 <= i < j < |CLASSES| :: CLASSES[i] != CLASSES[j]
  {
    assert CLASSES[0] == Waiting && CLASSES[1] == Running && CLASSES[2] == Ended(Incorporated) && CLASSES[3] == Ended(Duplicate)
        && CLASSES[4] == Ended(Foreign) && CLASSES[5] == Ended(Invalid) && CLASSES[6] == Ended(Unsupported)
        && CLASSES[7] == Ended(InternalError);
    match c
    case Waiting =>
    case Running =>
    case Ended(p) =>
      match p
      case Incorporated =>
      case Duplicate =>
      case Foreign =>
      case Invalid =>
      case Unsupported =>
      case InternalError =>
  }

  function ClassSum(items: ItemTable, org: Org, job: Id, n: nat): nat
    requires n <= |CLASSES|
  {
    if n == 0 then 0 else ClassSum(items, org, job, n - 1) + |InClass(items, org, job, CLASSES[n - 1])|
  }

  lemma {:induction false} PeelAll(items: ItemTable, org: Org, job: Id, n: nat)
    requires n <= |CLASSES|
    ensures |OfJob(items, org, job)| == ClassSum(items, org, job, n) + |Unseen(items, org, job, CLASSES[..n])|
  {
    if n == 0 {
      assert Unseen(items, org, job, CLASSES[..0]) == OfJob(items, org, job);
    } else {
      PeelAll(items, org, job, n - 1);
      ClassesComplete(Waiting);
      Peel(items, org, job, CLASSES[..n - 1], CLASSES[n - 1]);
      assert CLASSES[..n - 1] + [CLASSES[n - 1]] == CLASSES[..n];
    }
  }

  lemma CountByClass(items: ItemTable, org: Org, job: Id)
    requires AllChecked(items)
    ensures AtStage(items, org, job, Pending) == InClass(items, org, job, Waiting)
    ensures AtStage(items, org, job, InProgress) == InClass(items, org, job, Running)
    ensures forall p :: WithProduct(items, org, job, p) == InClass(items, org, job, Ended(p))
  {
    assert forall k | k in OfJob(items, org, job) :: ItemChecks(items[k]);
  }

  /** Because of the item CHECKs the eight classes partition the items: the parts sum to the total. */
  lemma PartsSumToTotal(items: ItemTable, org: Org, job: Id)
    requires AllChecked(items)
    ensures Count(items, org, job).Parts() == Count(items, org, job).total
  {
    CountByClass(items, org, job);
    PeelAll(items, org, job, 8);
    forall k | k in OfJob(items, org, job) ensures ClassOf(items[k]) in CLASSES[..8] {
      ClassesComplete(ClassOf(items[k]));
      assert CLASSES[..8] == CLASSES;
    }
    assert Unseen(items, org, job, CLASSES[..8]) == {};
    SumOfEight(items, org, job);
  }

  lemma SumOfEight(items: ItemTable, org: Org, job: Id)
    ensures ClassSum(items, org, job, 8)
         == |InClass(items, org, job, Waiting)| + |InClass(items, org, job, Running)|
          + |InClass(items, org, job, Ended(Incorporated))| + |InClass(items, org, job, Ended(Duplicate))|
          + |InClass(items, org, job, Ended(Foreign))| + |InClass(items, org, job, Ended(Invalid))|
          + |InClass(items, org, job, Ended(Unsupported))| + |InClass(items, org, job, Ended(InternalError))|
  {
    assert ClassSum(items, org, job, 1) == |InClass(items, org, job, Waiting)|;
    assert ClassSum(items, org, job, 2) == |InClass(items, org, job, Waiting)| + |InClass(items, org, job, Running)|;
    assert ClassSum(items, org, job, 4) == ClassSum(items, org, job, 2)
        + |InClass(items, org, job, Ended(Incorporated))| + |InClass(items, org, job, Ended(Duplicate))|;
    assert ClassSum(items, org, job, 6) == ClassSum(items, org, job, 4)
        + |InClass(items, org, job, Ended(Foreign))| + |InClass(items, org, job, Ended(Invalid))|;
  }

  /** A job whose items kept their rows has the same aggregate. */
  lemma SameCount(before: ItemTable, after: ItemTable, org: Org, job: Id)
    requires OfJob(after, org, job) == OfJob(before, org, job)
    requires forall k | k in OfJob(before, org, job) :: after[k].technical == before[k].technical && after[k].product == before[k].product
    ensures Count(after, org, job) == Count(before, org, job)
  {
    forall t ensures AtStage(after, org, job, t) == AtStage(before, org, job, t) {
    }
    forall p ensures WithProduct(after, org, job, p) == WithProduct(before, org, job, p) {
    }
  }

  // ---- the statements ----------------------------------------------------------------------

  datatype Store = Store(jobs: JobTable, items: ItemTable)

  /** mark_ingestion_job_counters_dirty, for one parent. */
  function MarkDirty(jobs: JobTable, org: Org, job: Id): JobTable {
    if job in jobs && jobs[job].org == org then jobs[job := jobs[job].(reconciledAt := None)] else jobs
  }

  /** An INSERT or UPDATE of an item with its trigger: the old parent and the new one are marked. */
  function PutItem(s: Store, k: Id, item: Item): Store {
    var jobs := if k in s.items then MarkDirty(s.jobs, s.items[k].org, s.items[k].job) else s.jobs;
    Store(MarkDirty(jobs, item.org, item.job), s.items[k := item])
  }

  function DropItem(s: Store, k: Id): Store {
    if k in s.items then Store(MarkDirty(s.jobs, s.items[k].org, s.items[k].job), s.items - {k}) else s
  }

  /** A recount of all nine counters: the reconciler's repair, a publication, an extraction, a terminalisation. */
  function Recount(j: Job, id: Id, items: ItemTable, now: Time): Job {
    j.(counters := Count(items, j.org, id), reconciledAt := Some(now))
  }

  // ---- finalize_manual_zip_items --------------------------------------------------------------

  function FinalErrorCode(row: Job): string {
    if row.status.Cancelled? then "ZIP_CANCELLED"
    else if row.lastErrorCode.Some? then row.lastErrorCode.value
    else "UNEXPECTED_WORKER_ERROR"
  }

  /** Every unfinished item of the job becomes an internal error. */
  function FinishItems(items: ItemTable, org: Org, job: Id, code: string, now: Time): ItemTable {
    map k | k in items ::
      if items[k].org == org && items[k].job == job && !items[k].technical.Done? then
        items[k].(technical := Done, product := Some(InternalError), errorCode := Some(code),
                  processedAt := Some(now), updatedAt := now, version := items[k].version + 1)
      else items[k]
  }

  /** The counters the trigger writes: pending and processing are the literal zero. */
  function FinalCounters(items: ItemTable, org: Org, job: Id): Counters {
    Count(items, org, job).(pending := 0, processing := 0)
  }

  /** The trigger fires on an update of `status` of a ZIP job to a terminal one. */
  predicate Finalises(before: Job, after: Job) {
    after.source.ManualZip? && Terminal(after.status) && before.status != after.status
  }

  /** An update of a job row together with its trigger; `row` is the row the statement wrote. */
  function UpdateJob(s: Store, id: Id, row: Job, now: Time): Store
    requires id in s.jobs
  {
    if Finalises(s.jobs[id], row) then
      var items := FinishItems(s.items, row.org, id, FinalErrorCode(row), now);
      Store(s.jobs[id := row.(counters := FinalCounters(items, row.org, id), reconciledAt := Some(now))], items)
    else s.(jobs := s.jobs[id := row])
  }

  function Unfinished(items: ItemTable, org: Org, job: Id): set<Id> {
    set k | k in OfJob(items, org, job) && !items[k].technical.Done?
  }

  /** Finalisation loses nothing: every item stays, the finished ones unchanged; every item of the job ends finished;
      internal errors grow by exactly the unfinished items and every other product keeps its count; and the
      counters written with their literal zeros are the ones a recount would find. */
  lemma FinalisationConserves(items: ItemTable, org: Org, job: Id, code: string, now: Time)
    requires AllChecked(items)
    ensures var after := FinishItems(items, org, job, code, now);
            && after.Keys == items.Keys && AllChecked(after)
            && (forall k | k in items && (items[k].technical.Done? || items[k].org != org || items[k].job != job) :: after[k] == items[k])
            && (forall k | k in OfJob(items, org, job) :: after[k].technical.Done?)
            && WithProduct(after, org, job, InternalError) == WithProduct(items, org, job, InternalError) + Unfinished(items, org, job)
            && |WithProduct(after, org, job, InternalError)| == |WithProduct(items, org, job, InternalError)| + |Unfinished(items, org, job)|
            && (forall p | p != InternalError :: WithProduct(after, org, job, p) == WithProduct(items, org, job, p))
            && Count(after, org, job).total == Count(items, org, job).total
            && FinalCounters(after, org, job) == Count(after, org, job)
  {
    var after := FinishItems(items, org, job, code, now);
    assert OfJob(after, org, job) == OfJob(items, org, job);
    FinishingKeepsChecks(items, org, job, code, now);
    FinishingAddsErrors(items, org, job, code, now);
    forall p | p != InternalError ensures WithProduct(after, org, job, p) == WithProduct(items, org, job, p) {
      FinishingKeepsProducts(items, org, job, code, now, p);
    }
    assert AtStage(after, org, job, Pending) == {} && AtStage(after, org, job, InProgress) == {};
  }

  lemma FinishingKeepsChecks(items: ItemTable, org: Org, job: Id, code: string, now: Time)
    requires AllChecked(items)
    ensures AllChecked(FinishItems(items, org, job, code, now))
  {
    forall k | k in items ensures ItemChecks(FinishItems(items, org, job, code, now)[k]) {
      assert ItemChecks(items[k]);
    }
  }

  lemma FinishingAddsErrors(items: ItemTable, org: Org, job: Id, code: string, now: Time)
    requires AllChecked(items)
    ensures var after := FinishItems(items, org, job, code, now);
            && WithProduct(after, org, job, InternalError) == WithProduct(items, org, job, InternalError) + Unfinished(items, org, job)
            && |WithProduct(after, org, job, InternalError)| == |WithProduct(items, org, job, InternalError)| + |Unfinished(items, org, job)|
  {
    forall k | k in OfJob(items, org, job) && items[k].product.Some? ensures items[k].technical.Done? {
      assert ItemChecks(items[k]);
    }
    assert WithProduct(items, org, job, InternalError) !! Unfinished(items, org, job);
  }

  lemma FinishingKeepsProducts(items: ItemTable, org: Org, job: Id, code: string, now: Time, p: Product)
    requires AllChecked(items) && p != InternalError
    ensures WithProduct(FinishItems(items, org, job, code, now), org, job, p) == WithProduct(items, org, job, p)
  {
    forall k | k in WithProduct(items, org, job, p) ensures k in WithProduct(FinishItems(items, org, job, code, now), org, job, p) {
      assert ItemChecks(items[k]);
    }
  }

  /** Finalising one job leaves the aggregate of every other job alone. */
  lemma FinalisationIsLocal(items: ItemTable, org: Org, job: Id, code: string, now: Time, otherOrg: Org, other: Id)
    requires otherOrg != org || other != job
    ensures Count(FinishItems(items, org, job, code, now), otherOrg, other) == Count(items, otherOrg, other)
  {
    var after := FinishItems(items, org, job, code, now);
    assert OfJob(after, otherOrg, other) == OfJob(items, otherOrg, other);
    SameCount(items, after, otherOrg, other);
  }

  /** The worker's own terminalisation after a final failure finds a finalised ZIP job finished: it changes no item
      and recounts the same counters. */
  lemma TerminalisingTwiceIsOnce(items: ItemTable, org: Org, job: Id, code: string, again: string, now: Time, later: Time)
    requires AllChecked(items)
    ensures var once := FinishItems(items, org, job, code, now);
            FinishItems(once, org, job, again, later) == once
  {
    FinalisationConserves(items, org, job, code, now);
    var once := FinishItems(items, org, job, code, now);
    var twice := FinishItems(once, org, job, again, later);
    forall k | k in once ensures twice[k] == once[k] {
      if once[k].org == org && once[k].job == job {
        assert k in OfJob(items, org, job);
      }
    }
  }

  // ---- the cache agrees with the aggregate ------------------------------------------------------

  predicate Agrees(j: Job, id: Id, items: ItemTable) {
    j.counters == Count(items, j.org, id)
  }

  /** The cache invariant: a job that is not marked dirty shows the true counts. */
  predicate CacheInv(s: Store) {
    && AllChecked(s.items)
    && forall id | id in s.jobs && s.jobs[id].reconciledAt.Some? :: Agrees(s.jobs[id], id, s.items)
  }

  datatype Move =
    | Put(k: Id, item: Item)
    | Drop(k: Id)
    | Repair(job: Id, now: Time)
    | Admit(job: Id, row: Job)
    | Update(job: Id, row: Job, now: Time)

  /** An update of a job row other than a recount or the trigger keeps the counters and the mark. */
  predicate KeepsCounters(before: Job, after: Job) {
    after.org == before.org && after.source == before.source
    && after.counters == before.counters && after.reconciledAt == before.reconciledAt
  }

  function Next(s: Store, m: Move): Store {
    match m
    case Put(k, item) => if ItemChecks(item) then PutItem(s, k, item) else s
    case Drop(k) => DropItem(s, k)
    case Repair(job, now) =>
      if job in s.jobs then s.(jobs := s.jobs[job := Recount(s.jobs[job], job, s.items, now)]) else s
    case Admit(job, row) =>
      if job !in s.jobs && row.reconciledAt.None? then s.(jobs := s.jobs[job := row]) else s
    case Update(job, row, now) =>
      if job in s.jobs && KeepsCounters(s.jobs[job], row) then UpdateJob(s, job, row, now) else s
  }

  function Run(s: Store, moves: seq<Move>): Store
    decreases |moves|
  {
    if moves == [] then s else Run(Next(s, moves[0]), moves[1..])
  }

  lemma PutKeepsCache(s: Store, k: Id, item: Item)
    requires CacheInv(s) && ItemChecks(item)
    ensures CacheInv(PutItem(s, k, item))
  {
    var t := PutItem(s, k, item);
    forall id | id in t.jobs && t.jobs[id].reconciledAt.Some? ensures Agrees(t.jobs[id], id, t.items) {
      var org := t.jobs[id].org;
      assert s.jobs[id] == t.jobs[id];
      assert !(item.org == org && item.job == id);
      assert k in s.items ==> !(s.items[k].org == org && s.items[k].job == id);
      assert OfJob(t.items, org, id) == OfJob(s.items, org, id);
      SameCount(s.items, t.items, org, id);
    }
  }

  lemma DropKeepsCache(s: Store, k: Id)
    requires CacheInv(s)
    ensures CacheInv(DropItem(s, k))
  {
    var t := DropItem(s, k);
    if k in s.items {
      forall id | id in t.jobs && t.jobs[id].reconciledAt.Some? ensures Agrees(t.jobs[id], id, t.items) {
        var org := t.jobs[id].org;
        assert s.jobs[id] == t.jobs[id];
        assert OfJob(t.items, org, id) == OfJob(s.items, org, id);
        SameCount(s.items, t.items, org, id);
      }
    }
  }

  lemma UpdateKeepsCache(s: Store, id: Id, row: Job, now: Time)
    requires CacheInv(s) && id in s.jobs && KeepsCounters(s.jobs[id], row)
    ensures CacheInv(UpdateJob(s, id, row, now))
  {
    if Finalises(s.jobs[id], row) {
      var t := UpdateJob(s, id, row, now);
      FinalisationConserves(s.items, row.org, id, FinalErrorCode(row), now);
      forall other | other in t.jobs && t.jobs[other].reconciledAt.Some? ensures Agrees(t.jobs[other], other, t.items) {
        if other != id {
          FinalisationIsLocal(s.items, row.org, id, FinalErrorCode(row), now, t.jobs[other].org, other);
        }
      }
    }
  }

  lemma NextKeepsCache(s: Store, m: Move)
    requires CacheInv(s)
    ensures CacheInv(Next(s, m))
  {
    match m
    case Put(k, item) =>
      if ItemChecks(item) {
        PutKeepsCache(s, k, item);
      }
    case Drop(k) => DropKeepsCache(s, k);
    case Repair(_, _) =>
    case Admit(_, _) =>
    case Update(job, row, now) =>
      if job in s.jobs && KeepsCounters(s.jobs[job], row) {
        UpdateKeepsCache(s, job, row, now);
      }
  }

  /** Over any sequence of item changes, full recounts, admissions, job updates and finalisations, every job
      that is not marked dirty shows all nine true counts, and they satisfy the table's counter CHECK. */
  lemma {:induction false} CacheAgrees(s: Store, moves: seq<Move>)
    requires CacheInv(s)
    ensures var end := Run(s, moves);
            CacheInv(end)
            && forall id | id in end.jobs && end.jobs[id].reconciledAt.Some? ::
                 && ShowsCounts(end.jobs[id].counters, end.items, end.jobs[id].org, id)
                 && end.jobs[id].counters.Parts() == end.jobs[id].counters.total
    decreases |moves|
  {
    if moves == [] {
      forall id | id in s.jobs && s.jobs[id].reconciledAt.Some?
        ensures ShowsCounts(s.jobs[id].counters, s.items, s.jobs[id].org, id)
             && s.jobs[id].counters.Parts() == s.jobs[id].counters.total
      {
        assert Agrees(s.jobs[id], id, s.items);
        CountShows(s.items, s.jobs[id].org, id);
        PartsSumToTotal(s.items, s.jobs[id].org, id);
      }
    } else {
      NextKeepsCache(s, moves[0]);
      CacheAgrees(Next(s, moves[0]), moves[1..]);
    }
  }

  /** What the publication boundary of cancellation means: for a job that is not dirty, it refuses exactly when
      the job is a manual_xml one with at least one item and every item is finished. */
  lemma PublishedMeansFinished(s: Store, id: Id)
    requires CacheInv(s) && id in s.jobs && s.jobs[id].reconciledAt.Some?
    ensures Published(s.jobs[id])
       <==> s.jobs[id].source.ManualXml? && |OfJob(s.items, s.jobs[id].org, id)| > 0
            && forall k | k in OfJob(s.items, s.jobs[id].org, id) :: s.items[k].technical.Done?
  {
    var org := s.jobs[id].org;
    var open := AtStage(s.items, org, id, Pending) + AtStage(s.items, org, id, InProgress);
    assert Agrees(s.jobs[id], id, s.items);
    forall k | k in OfJob(s.items, org, id) ensures k in open <==> !s.items[k].technical.Done? {
    }
    if Published(s.jobs[id]) {
      assert |AtStage(s.items, org, id, Pending)| == 0 && |AtStage(s.items, org, id, InProgress)| == 0;
      assert open == {};
    } else if forall k | k in OfJob(s.items, org, id) :: s.items[k].technical.Done? {
      assert AtStage(s.items, org, id, Pending) == {} && AtStage(s.items, org, id, InProgress) == {};
    }
  }

  // ---- the SAT worker's partial recount -----------------------------------------------------------

  /** After publishing one metadata entry the SAT worker recounts four of the nine counters and clears the dirty mark. */
  function PartialRecount(j: Job, id: Id, items: ItemTable, now: Time): Job {
    var c := Count(items, j.org, id);
    j.(counters := j.counters.(pending := c.pending, incorporated := c.incorporated, invalid := c.invalid, unsupported := c.unsupported),
       reconciledAt := Some(now))
  }

  /** Its entry: one item that was pending becomes incorporated or invalid. */
  predicate Publishes(before: ItemTable, after: ItemTable, k: Id) {
    && k in before && before[k].technical.Pending? && before[k].product.None?
    && after.Keys == before.Keys
    && (forall other | other in before && other != k :: after[other] == before[other])
    && after[k].org == before[k].org && after[k].job == before[k].job && after[k].technical.Done?
    && (after[k].product == Some(Incorporated) || after[k].product == Some(Invalid))
  }

  /** The five counters it does not touch are the ones a pending item can leave unchanged. */
  predicate SameUncounted(a: Counters, b: Counters) {
    a.total == b.total && a.processing == b.processing && a.duplicate == b.duplicate
    && a.foreign == b.foreign && a.internalError == b.internalError
  }

  lemma PublishingKeepsUncounted(before: ItemTable, after: ItemTable, k: Id)
    requires Publishes(before, after, k)
    ensures SameUncounted(Count(before, before[k].org, before[k].job), Count(after, before[k].org, before[k].job))
  {
    var org, job := before[k].org, before[k].job;
    assert OfJob(after, org, job) == OfJob(before, org, job);
    assert AtStage(after, org, job, InProgress) == AtStage(before, org, job, InProgress);
    assert WithProduct(after, org, job, Duplicate) == WithProduct(before, org, job, Duplicate);
    assert WithProduct(after, org, job, Foreign) == WithProduct(before, org, job, Foreign);
    assert WithProduct(after, org, job, InternalError) == WithProduct(before, org, job, InternalError);
  }

  /** Exactly when the partial recount leaves a true cache: if and only if, before the entry was published, the cached
      total, processing, duplicate, foreign and internal-error counters were already the true ones. A job whose
      cache was clean before the entry always meets it. */
  lemma PartialRecountAgreesIff(j: Job, before: ItemTable, after: ItemTable, k: Id, now: Time)
    requires Publishes(before, after, k) && before[k].org == j.org
    ensures Agrees(PartialRecount(j, before[k].job, after, now), before[k].job, after)
       <==> SameUncounted(j.counters, Count(before, j.org, before[k].job))
    ensures Agrees(j, before[k].job, before) ==> Agrees(PartialRecount(j, before[k].job, after, now), before[k].job, after)
  {
    PublishingKeepsUncounted(before, after, k);
  }
}
