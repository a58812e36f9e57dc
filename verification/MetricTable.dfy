/** The metrics as they are declared, with the values allowed for each label: the table is tidy, and every metric but one
    can be updated. */
module MetricTable {
  import opened Support
  import opened Metrics
  import opened MetricRegistry

  const CUSTODY: map<string, Definition> := map[
    "sat_cleanup_failures_total" := Definition(Counter, [], []),
    "efirma_ready_total" := Definition(Counter, [], []),
    "efirma_consumed_total" := Definition(Counter, [], [])]

  const EXPIRY: map<string, Definition> := map[
    "efirma_expired_total" := Definition(Counter, [], []),
    "efirma_cleanup_failures_total" := Definition(Counter, [], []),
    "zip_admitted_total" := Definition(Counter, [], [])]

  const ZIP_COUNTS: map<string, Definition> := map[
    "zip_uncompressed_bytes_total" := Definition(Counter, [], []),
    "zip_entries_inspected_total" := Definition(Counter, [], []),
    "zip_structural_rejections_total" := Definition(Counter, [], [])]

  const ZIP_SIZES: map<string, Definition> := map[
    "zip_cleanup_failures_total" := Definition(Counter, [], []),
    "zip_expansion_ratio" := Definition(Histogram, [], [1.0, 2.0, 5.0, 10.0, 20.0, 30.0, 40.0, 50.0]),
    "zip_extraction_duration_seconds" := Definition(Histogram, [], [0.1, 1.0, 5.0, 10.0, 30.0, 60.0, 120.0, 300.0])]

  const JOBS: map<string, Definition> := map[
    "ingestion_jobs_created_total" := Definition(Counter, ["source"], []),
    "ingestion_jobs_completed_total" := Definition(Counter, ["result", "source"], []),
    "ingestion_jobs_failed_total" := Definition(Counter, ["result", "source"], [])]

  const ITEMS: map<string, Definition> := map[
    "ingestion_jobs_recovered_total" := Definition(Counter, ["outcome", "source"], []),
    "ingestion_items_total" := Definition(Counter, ["source", "stage"], []),
    "ingestion_items_by_result" := Definition(Counter, ["result"], [])]

  const QUEUE: map<string, Definition> := map[
    "ingestion_duration_seconds" :=
      Definition(Histogram, ["result", "source"], [0.1, 0.5, 1.0, 2.5, 5.0, 15.0, 30.0, 60.0, 120.0, 300.0]),
    "ingestion_queue_age_seconds" := Definition(Gauge, ["source"], []),
    "ingestion_queue_refresh_duration_seconds" :=
      Definition(Histogram, ["outcome"], [0.01, 0.05, 0.1, 0.5, 1.0, 5.0, 15.0, 30.0])]

  const HEARTBEATS: map<string, Definition> := map[
    "worker_heartbeats_total" := Definition(Counter, ["outcome", "source"], []),
    "ingestion_upload_bytes_total" := Definition(Counter, ["source"], []),
    "ingestion_hash_conflicts_total" := Definition(Counter, ["source"], [])]

  const DENIALS: map<string, Definition> := map[
    "ingestion_cross_tenant_denials_total" := Definition(Counter, ["stage"], []),
    "ingestion_scanner_failures_total" := Definition(Counter, ["result"], []),
    "ingestion_parser_failures_total" := Definition(Counter, ["result"], [])]

  const ACTIVITY: map<string, Definition> := map[
    "worker_active_jobs" := Definition(Gauge, ["source"], []),
    "worker_heartbeat_lag_seconds" := Definition(Gauge, ["source"], []),
    "worker_lease_reclaims_total" := Definition(Counter, ["outcome"], [])]

  const STORAGE: map<string, Definition> := map[
    "object_storage_failures_total" := Definition(Counter, ["provider", "stage"], []),
    "object_storage_operation_duration_seconds" :=
      Definition(Histogram, ["outcome", "provider", "stage"], [0.01, 0.05, 0.1, 0.25, 0.5, 1.0, 2.5, 5.0, 15.0, 30.0])]

  const WAKEUPS: map<string, Definition> := map[
    "ingestion_scanner_duration_seconds" :=
      Definition(Histogram, ["result", "stage"], [0.05, 0.1, 0.25, 0.5, 1.0, 2.5, 5.0, 15.0, 30.0, 60.0]),
    "redis_wakeup_failures_total" := Definition(Counter, ["stage"], []),
    "redis_wakeup_published_total" := Definition(Counter, [], [])]

  const SHUTDOWN: map<string, Definition> := map[
    "redis_wakeup_received_total" := Definition(Counter, [], []),
    "ingestion_reconciliations_total" := Definition(Counter, ["outcome", "stage"], []),
    "worker_shutdown_total" := Definition(Counter, ["outcome"], [])]

  const SOURCE_VALUES: set<string> := {
    "manual_xml", "manual_zip", "sat_package"}

  const PROVIDER_VALUES: set<string> := {
    "local", "s3"}

  const STATUS_VALUES: set<string> := {
    "awaiting_upload", "queued", "processing", "completed", "completed_with_issues", "failed_retryable",
    "failed_final", "cancel_requested", "cancelled", "up", "down", "degraded", "disabled"}

  const RESULT_VALUES: set<string> := {
    "clean", "infected", "bypassed", "failed", "up", "down", "completed", "completed_with_issues",
    "failed_retryable", "failed_final", "lease_lost", "cancelled", "released", "incorporated", "duplicate",
    "foreign", "invalid", "unsupported", "internal_error"}

  const OUTCOME_VALUES: set<string> := {
    "renewed", "cancel_requested", "lost", "claimed", "retryable", "final", "cancelled", "observed", "success",
    "failed", "clean", "timeout"}

  const STAGE_VALUES: set<string> := {
    "put", "read", "head", "delete", "signed_url", "health", "scan", "publish", "subscribe", "claim", "worker",
    "handler", "leases", "expired_upload", "orphan_object", "confirmed_without_job", "orphan_job", "job_counters",
    "redundant_object", "retention", "scanning", "extracting", "parsing", "persisting"}

  const SAT_CALLS := "sat_external_calls_total"

  const OTHERS: map<string, Definition> :=
    CUSTODY + EXPIRY + ZIP_COUNTS + ZIP_SIZES + JOBS + ITEMS + QUEUE
    + HEARTBEATS + DENIALS + ACTIVITY + STORAGE + WAKEUPS + SHUTDOWN

  const VALUES: map<string, set<string>> :=
    map["source" := SOURCE_VALUES, "provider" := PROVIDER_VALUES, "status" := STATUS_VALUES, "result" := RESULT_VALUES,
        "outcome" := OUTCOME_VALUES, "stage" := STAGE_VALUES]

  const FISCAL := Schema(OTHERS + map[SAT_CALLS := Definition(Counter, ["operation"], [])], VALUES)

  // ---- the table is tidy --------------------------------------------------------------------------------

  /** Labels are listed in the order sort() leaves them. */
  predicate GoodLabels(labels: seq<string>) {
    && (forall i, j | 0 <= i < j < |labels| :: labels[i] != labels[j])
    && (forall i | 0 <= i < |labels| :: SafeName(labels[i]))
  }

  predicate Ascending(bounds: seq<real>) {
    forall i, j | 0 <= i < j < |bounds| :: bounds[i] <= bounds[j]
  }

  /** Rows that are tidy and whose labels are all safe. */
  predicate Good(rows: map<string, Definition>) {
    forall name | name in rows :: NoBar(name) && GoodLabels(rows[name].labels) && Ascending(rows[name].bounds)
  }

  lemma Together(a: map<string, Definition>, b: map<string, Definition>)
    requires Good(a) && Good(b)
    ensures Good(a + b)
  {
  }

  lemma LabelsDiffer()
    ensures "result" != "source" && "source" != "stage" && "result" != "stage"
    ensures "outcome" != "source" && "outcome" != "stage" && "outcome" != "provider" && "provider" != "stage"
  {
    assert "result"[0] != "source"[0];
  }

  lemma LabelLists()
    ensures GoodLabels([])
    ensures GoodLabels(["source"])
    ensures GoodLabels(["result", "source"])
    ensures GoodLabels(["outcome", "source"])
    ensures GoodLabels(["source", "stage"])
    ensures GoodLabels(["result"])
    ensures GoodLabels(["outcome"])
    ensures GoodLabels(["stage"])
    ensures GoodLabels(["provider", "stage"])
    ensures GoodLabels(["outcome", "provider", "stage"])
    ensures GoodLabels(["result", "stage"])
    ensures GoodLabels(["outcome", "stage"])
  {
    LabelsDiffer();
  }

  lemma BoundLists()
    ensures Ascending([1.0, 2.0, 5.0, 10.0, 20.0, 30.0, 40.0, 50.0])
    ensures Ascending([0.1, 1.0, 5.0, 10.0, 30.0, 60.0, 120.0, 300.0])
    ensures Ascending([0.1, 0.5, 1.0, 2.5, 5.0, 15.0, 30.0, 60.0, 120.0, 300.0])
    ensures Ascending([0.01, 0.05, 0.1, 0.5, 1.0, 5.0, 15.0, 30.0])
    ensures Ascending([0.01, 0.05, 0.1, 0.25, 0.5, 1.0, 2.5, 5.0, 15.0, 30.0])
    ensures Ascending([0.05, 0.1, 0.25, 0.5, 1.0, 2.5, 5.0, 15.0, 30.0, 60.0])
  {
  }

  lemma CustodyRows()
    ensures Good(CUSTODY)
  {
    LabelLists();
    BoundLists();
  }

  lemma ExpiryRows()
    ensures Good(EXPIRY)
  {
    LabelLists();
    BoundLists();
  }

  lemma ZipCountsRows()
    ensures Good(ZIP_COUNTS)
  {
    LabelLists();
    BoundLists();
  }

  lemma ZipSizesRows()
    ensures Good(ZIP_SIZES)
  {
    LabelLists();
    BoundLists();
  }

  lemma JobsRows()
    ensures Good(JOBS)
  {
    LabelLists();
    BoundLists();
  }

  lemma ItemsRows()
    ensures Good(ITEMS)
  {
    LabelLists();
    BoundLists();
  }

  lemma QueueRows()
    ensures Good(QUEUE)
  {
    LabelLists();
    BoundLists();
  }

  lemma HeartbeatsRows()
    ensures Good(HEARTBEATS)
  {
    LabelLists();
    BoundLists();
  }

  lemma DenialsRows()
    ensures Good(DENIALS)
  {
    LabelLists();
    BoundLists();
  }

  lemma ActivityRows()
    ensures Good(ACTIVITY)
  {
    LabelLists();
    BoundLists();
  }

  lemma StorageRows()
    ensures Good(STORAGE)
  {
    LabelLists();
    BoundLists();
  }

  lemma WakeupsRows()
    ensures Good(WAKEUPS)
  {
    LabelLists();
    BoundLists();
  }

  lemma ShutdownRows()
    ensures Good(SHUTDOWN)
  {
    LabelLists();
    BoundLists();
  }

  lemma OthersGood()
    ensures Good(OTHERS)
  {
    CustodyRows();
    ExpiryRows();
    ZipCountsRows();
    ZipSizesRows();
    JobsRows();
    ItemsRows();
    QueueRows();
    HeartbeatsRows();
    DenialsRows();
    ActivityRows();
    StorageRows();
    WakeupsRows();
    ShutdownRows();
    Together(CUSTODY, EXPIRY);
    Together(CUSTODY + EXPIRY, ZIP_COUNTS);
    Together(CUSTODY + EXPIRY + ZIP_COUNTS, ZIP_SIZES);
    Together(CUSTODY + EXPIRY + ZIP_COUNTS + ZIP_SIZES, JOBS);
    Together(CUSTODY + EXPIRY + ZIP_COUNTS + ZIP_SIZES + JOBS, ITEMS);
    Together(CUSTODY + EXPIRY + ZIP_COUNTS + ZIP_SIZES + JOBS + ITEMS, QUEUE);
    Together(CUSTODY + EXPIRY + ZIP_COUNTS + ZIP_SIZES + JOBS + ITEMS + QUEUE, HEARTBEATS);
    Together(CUSTODY + EXPIRY + ZIP_COUNTS + ZIP_SIZES + JOBS + ITEMS + QUEUE + HEARTBEATS, DENIALS);
    Together(CUSTODY + EXPIRY + ZIP_COUNTS + ZIP_SIZES + JOBS + ITEMS + QUEUE + HEARTBEATS + DENIALS, ACTIVITY);
    Together(CUSTODY + EXPIRY + ZIP_COUNTS + ZIP_SIZES + JOBS + ITEMS + QUEUE + HEARTBEATS + DENIALS + ACTIVITY, STORAGE);
    Together(CUSTODY + EXPIRY + ZIP_COUNTS + ZIP_SIZES + JOBS + ITEMS + QUEUE + HEARTBEATS + DENIALS + ACTIVITY + STORAGE, WAKEUPS);
    Together(CUSTODY + EXPIRY + ZIP_COUNTS + ZIP_SIZES + JOBS + ITEMS + QUEUE + HEARTBEATS + DENIALS + ACTIVITY + STORAGE + WAKEUPS, SHUTDOWN);
  }

  /** Good rows and one more make a tidy schema. */
  lemma TidyWithOneMore(others: map<string, Definition>, name: string, d: Definition, values: map<string, set<string>>)
    requires Good(others) && NoBar(name) && |d.labels| == 1 && d.bounds == []
    ensures Tidy(Schema(others + map[name := d], values))
  {
  }

  /** The declared table meets everything the keys and the rendering rely on. */
  lemma FiscalIsTidy()
    ensures Tidy(FISCAL)
  {
    OthersGood();
    TidyWithOneMore(OTHERS, SAT_CALLS, Definition(Counter, ["operation"], []), VALUES);
  }

  // ---- which of them can be updated -----------------------------------------------------------------------

  /** Each safe label has a value that passes. */
  predicate Lists(values: map<string, set<string>>, labelName: string, value: string) {
    labelName in values && value in values[labelName]
  }

  lemma NamesDiffer()
    ensures "status" != "source" && "status" != "result" && "status" != "stage" && "status" != "outcome" && "status" != "provider"
    ensures "provider" != "source" && "provider" != "result" && "outcome" != "result"
  {
    LabelsDiffer();
    assert "status"[1] != "source"[1];
    assert "status"[0] != "result"[0];
  }

  lemma Lookup(source: set<string>, provider: set<string>, status: set<string>, result: set<string>, outcome: set<string>,
               stage: set<string>)
    ensures var values := map["source" := source, "provider" := provider, "status" := status, "result" := result, "outcome" := outcome,
                              "stage" := stage];
            && (forall v | v in source :: Lists(values, "source", v)) && (forall v | v in provider :: Lists(values, "provider", v))
            && (forall v | v in status :: Lists(values, "status", v)) && (forall v | v in result :: Lists(values, "result", v))
            && (forall v | v in outcome :: Lists(values, "outcome", v)) && (forall v | v in stage :: Lists(values, "stage", v))
  {
    LabelsDiffer();
    NamesDiffer();
  }

  lemma ListedIsSafe(schema: Schema, l: string, v: string)
    requires SafeName(l) && SafeText(v) && Lists(schema.values, l, v)
    ensures HasSafeValue(schema, l)
  {
    assert SafeLabel(schema, l, v);
  }

  lemma Members()
    ensures "sat_package" in SOURCE_VALUES && "local" in PROVIDER_VALUES && "queued" in STATUS_VALUES
    ensures "clean" in RESULT_VALUES && "lost" in OUTCOME_VALUES && "scan" in STAGE_VALUES
  {
  }

  lemma Texts()
    ensures SafeText("sat_package") && SafeText("local") && SafeText("queued") && SafeText("clean") && SafeText("lost") && SafeText("scan")
  {
  }

  lemma SafeLabelsHaveValues(l: string)
    requires SafeName(l)
    ensures HasSafeValue(FISCAL, l)
  {
    Members();
    Texts();
    Lookup(SOURCE_VALUES, PROVIDER_VALUES, STATUS_VALUES, RESULT_VALUES, OUTCOME_VALUES, STAGE_VALUES);
    var v := if l == "source" then "sat_package" else if l == "provider" then "local" else if l == "status" then "queued"
             else if l == "result" then "clean" else if l == "outcome" then "lost" else "scan";
    ListedIsSafe(FISCAL, l, v);
  }

  lemma OperationIsUnsafe()
    ensures !SafeName("operation")
  {
  }

  /** Good rows can be updated when every safe label has a value; a row labelled `operation` cannot. */
  lemma UsableButOne(others: map<string, Definition>, one: string, d: Definition, values: map<string, set<string>>, name: string)
    requires Good(others) && NoBar(one) && d.labels == ["operation"] && d.bounds == []
    requires forall l: string | SafeName(l) :: HasSafeValue(Schema(others + map[one := d], values), l)
    requires name in others || name == one
    ensures (exists labels: Labels :: Accepted(Schema(others + map[one := d], values), name, labels)) <==> name != one
  {
    var schema := Schema(others + map[one := d], values);
    TidyWithOneMore(others, one, d, values);
    UsableExactlyWithSafeLabels(schema, name);
    if name == one {
      OperationIsUnsafe();
      assert schema.metrics[name].labels[0] == "operation";
      assert !HasSafeValue(schema, "operation");
    } else {
      assert schema.metrics[name] == others[name] && GoodLabels(others[name].labels);
    }
  }

  /** Of the declared metrics exactly one can never be updated. */
  lemma OnlySatCallsIsUnusable(name: string)
    requires name in FISCAL.metrics
    ensures (exists labels: Labels :: Accepted(FISCAL, name, labels)) <==> name != SAT_CALLS
  {
    OthersGood();
    forall l: string | SafeName(l) ensures HasSafeValue(FISCAL, l) {
      SafeLabelsHaveValues(l);
    }
    UsableButOne(OTHERS, SAT_CALLS, Definition(Counter, ["operation"], []), VALUES, name);
  }

  /** Whatever its labels and its number, an update of sat_external_calls_total is refused. */
  lemma SatCallsAreNeverCounted(u: Update)
    requires u.name == SAT_CALLS
    ensures SAT_CALLS in FISCAL.metrics && Rejected(FISCAL, u).Some?
  {
    OnlySatCallsIsUnusable(SAT_CALLS);
    UnusableIsRejected(FISCAL, u);
  }

  lemma UnusableIsRejected(schema: Schema, u: Update)
    requires u.name in schema.metrics && !exists labels: Labels :: Accepted(schema, u.name, labels)
    ensures Rejected(schema, u).Some?
  {
    assert !Accepted(schema, u.name, u.labels);
  }
}
