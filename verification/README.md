# Balanz: the durable ingestion queue and four of its neighbours, proved

Balanz ingests Mexican tax documents through a queue that lives in PostgreSQL. Workers claim jobs under 90-second
leases, tenants are served fairly and at most four at a time, users cancel, and one reconciler repairs whatever a crash left
behind. The functions are written in PL/pgSQL inside the migrations; the workers' own statements are in TypeScript. This project
models them as they are now (the retry budget migration, the cancellation with the publication boundary, the ZIP trigger) and
proves what they promise over whole runs. Four smaller parts follow the same pattern: the register of payment snapshots, the
release host, the effective-permission predicates and the metrics registry.

| module | what it models |
|---|---|
| `Support` | nullable columns, the clock, finite sets |
| `Jobs` | a row of `ingestion_jobs`, its CHECKs and every statement that rewrites it |
| `JobLaws` | what each of them asks of a row and leaves in it, column by column and in figures |
| `JobRuns` | one job under any run of those statements: budget, leases, cancellation, the one way to be stranded |
| `TenantCap` | concurrent claims in three steps, interleaved with everything else |
| `Queue` | the claim as it executes (class `IngestionQueue`), its fairness and its audit rows |
| `Items` | items, the nine cached counters, the dirty mark, the ZIP finaliser |
| `Archives` | the archive worker on metadata packages: reservations, extraction with full recounts, parsing with partial ones |
| `Publication` | the publication boundary over jobs and items together |
| `Objects` | stored objects, their CHECKs and the lifecycle trigger |
| `Reconciler`, `ReconcilerRuns`, `ReconcilerSafety`, `ReconcilerLaws` | the eight statements on batches, how they come to rest, what they keep, and what must be true of every row they change |
| `FiscalStore` | the tables and one call of the reconciler with its order, limit and locked rows (class `Tables`) |
| `ZipCleanup` | the cleanup claimer across its two snapshots (class `ObjectStore`) |
| `Availability` | every writer of stored objects, and why the claimer never meets an available one |
| `Backfill` | the queue before the retry budget, and the migration that rebuilt the budget from the audit log |
| `Payments` | the register of licence snapshots (class `LicenseRegister`) |
| `Tags`, `Deploy`, `DeployRuns` | release tags, one operation on a release host (class `DeployRoot`), and whole histories |
| `Permissions` | the authorisation tables, the precedence rule and the three SQL predicates |
| `Metrics`, `MetricTable`, `MetricRegistry` | metric keys, the declared metrics, and the registry against the log of its updates (class `FiscalMetrics`) |

Statements that write in place are methods of a class and are tied to a specification function of the old state; the theorems are about
runs of those functions. Where a branch of such a function decides who is served, what is deleted or what is refused, a second statement says so on the
columns of the rows alone, in figures, and the two are proved to agree. `dafny verify dfyconfig.toml` checks everything.

## What turned out not to hold

Three promises fail on some inputs. The code is modelled as it is; for each there is the failing input and the exact condition.

- A cancel-requested job always has a lease whose expiry ends it, except one: the SAT worker stamps the jobs of a cancelled
  download without looking at their status (`apps/api/src/modules/sat-download/sat-worker.ts:529`), and a job that was queued or
  waiting for a retry is then stranded for good (`StrandedExactlyBySatCancel`, `StrandedForever`, `SatCancelStrands`).
- `previous` differs from `current` after an operation, except that a process that dies between the two links leaves both on one release, and
  deploying that release again completes without repairing it (`PreviousIsAnotherRelease`, `RedeployKeepsTwin`).
- A release can be retried after a failure, except that a copy cut short leaves its staging directory behind and makes the tag unusable for
  good (`AbandonedTagIsLost`, `AbandonedExactlyByACut`).

Two functions would fail on inputs that their callers never give them. The first half of each is a property of the function alone, the second
is proved over whole runs of the callers.

- The SAT metadata processor clears the dirty mark after recounting four of nine counters, which leaves a true cache if and only if the other five
  were true (`PartialRecountAgreesIff`). They always are: a parsed entry was extracted in the same session, with a full recount after
  the last reservation (`Archives.PartialRecountIsEnough`, `Archives.CacheAgrees`).
- The ZIP cleanup claimer aborts when it selects an `available` object, and the CHECKs and the lifecycle trigger do not exclude one
  (`RaisesExactlyOnAvailable`, `CanRaiseIff`, `UnpublishedAvailableAborts`). The writers do: an object becomes available only together with
  its CFDI (`Availability.CleanupNeverRaises`).

## Model

| member | source | states |
|---|---|---|
| `Jobs.RetryWaitRange` | apps/api/src/database/migrations/1787690620000-IngestionAutomaticRetryBudget.ts:514-539 | a delay in seconds is reachable for some draw of the random number if and only if it lies between 10, 30 or 120 and that base plus its jitter percentage, rounded up |
| `JobLaws.StatementsObeyLaws` | apps/api/src/modules/ingestion/services/ingestion-job.repository.ts:245-610 | on every row and at every time a heartbeat, completion, final failure, retry, release, cancellation, recovery or orphan failure applies exactly under its WHERE and leaves exactly its columns: 90 seconds of lease, three retries after 10, 30 and 120 seconds, a waiting job cancelled at once and a running one asked to stop |
| `JobLaws.FailureIsRetried` | apps/api/src/modules/ingestion/services/ingestion-job.repository.ts:431-500 | a failed execution with fewer than three retries granted waits for a retry, due no earlier than 10, 30 or 120 seconds later |
| `JobLaws.ColumnsOverRuns` | apps/api/src/database/migrations/1787690600000-FiscalIngestionFoundation.ts:317-345 | over every run from admission, what each status says about lease, schedule, cancellation stamp and completion, and that the parts of the counters sum to the total |
| `JobRuns.StepKeepsInv` | apps/api/src/database/migrations/1787690600000-FiscalIngestionFoundation.ts:317-345 | every statement that can reach a job row, at any later time, keeps all the lease, unlock, cancel, completion, schedule and counter CHECKs, the retry budget and the history of leases |
| `JobRuns.RunKeepsInv` | apps/api/src/database/migrations/1787690620000-IngestionAutomaticRetryBudget.ts:81-88 | the same over every run of statements in any order |
| `JobRuns.RetryBudget` | apps/api/src/database/migrations/1787690620000-IngestionAutomaticRetryBudget.ts:501-547 | over every run from admission: 0 <= retries <= 3, retries <= attempts, retries < attempts while processing, attempts <= 4 + graceful releases, and a queued job has paid every attempt by a retry or a release |
| `JobRuns.LeasesNeverOverlap` | apps/api/src/database/migrations/1787690620000-IngestionAutomaticRetryBudget.ts:249-264 | over every run no instant belongs to two leases of one job |
| `JobRuns.OnlyTheHolderWrites` | apps/api/src/modules/ingestion/services/ingestion-job.repository.ts:245-610 | a fenced worker statement changes a row only for the last lease granted and inside its interval |
| `JobRuns.CancellationIsFinal` | apps/api/src/database/migrations/1787690700000-PhaseOneCfdiDomain.ts:736-760 | once a cancellation is stamped, over every continuation the stamp, attempts, retries and last claim never change and the status can only become cancelled |
| `JobRuns.TerminalIsFinal` | apps/api/src/database/migrations/1787690700000-PhaseOneCfdiDomain.ts:755-755 | a terminal job is revived by no statement: only its counters can be recounted |
| `JobRuns.CancellationIsIdempotent` | apps/api/src/database/migrations/1787690700000-PhaseOneCfdiDomain.ts:725-781 | asking again at any later time changes neither status, stamp nor completion, and a refused request stays refused |
| `JobRuns.PublishedIsNeverCancelled` | apps/api/src/database/migrations/1787690700000-PhaseOneCfdiDomain.ts:712-756 | for one job row, as long as its recounts keep saying finished, a published manual_xml job is never cancelled; `Publication.PublishedIsNeverCancelled` derives that from the items |
| `JobRuns.RecoveryIsEnabled` | apps/api/src/database/migrations/1787690620000-IngestionAutomaticRetryBudget.ts:492-559 | unless stranded, every job in a leased status has an expiry, and from that moment recovery ends it or grants a retry at least 10 seconds away; a cancel-requested one is cancelled without spending a retry |
| `JobRuns.StrandedExactlyBySatCancel` | apps/api/src/modules/sat-download/sat-worker.ts:528-531 | on every run a job ends cancel-requested without a lease if and only if the SAT worker cancelled it while it was queued or waiting for a retry |
| `JobRuns.StrandedForever` | apps/api/src/modules/sat-download/sat-worker.ts:528-531 | such a job stays cancel-requested over every continuation |
| `JobRuns.SatCancelStrands` | apps/api/src/modules/sat-download/sat-worker.ts:528-531 | the failing input: every queued or retryable SAT job the SAT worker cancels satisfies all CHECKs and is never recovered |
| `TenantCap.CapHolds` | apps/api/src/database/migrations/1787690620000-IngestionAutomaticRetryBudget.ts:175-264 | over any interleaving of any number of three-step claims, whose first snapshot may be stale, with any other statements, no tenant ever has more than four live leases |
| `TenantCap.CapHoldsFromRest` | apps/api/src/database/migrations/1787690620000-IngestionAutomaticRetryBudget.ts:193-199 | the same from tables where no claim is in progress |
| `TenantCap.NeverMoreThanFour` | apps/api/src/database/migrations/1787690620000-IngestionAutomaticRetryBudget.ts:193-199 | the same on the columns: at no point of any interleaving are five jobs of a tenant processing or cancel-requested with an expiry ahead |
| `TenantCap.CommitAddsOne` | apps/api/src/database/migrations/1787690620000-IngestionAutomaticRetryBudget.ts:220-264 | a committed claim adds exactly its own job to the live leases of its own tenant |
| `TenantCap.OnlyClaimsMakeLeasesLive` | apps/api/src/modules/ingestion/services/ingestion-job.repository.ts:245-288 | no other statement makes a lease live again |
| `TenantCap.WithoutTheLockTheCapFails` | apps/api/src/database/migrations/1787690620000-IngestionAutomaticRetryBudget.ts:208-213 | two claims that both counted three, which the tenant lock excludes, would reach five |
| `Queue.FirstFreeTenant` | apps/api/src/database/migrations/1787690620000-IngestionAutomaticRetryBudget.ts:175-217 | the cursor loop returns the first tenant in fairness order whose lock is free, or none exactly when all are held |
| `Queue.TenantKeyIsEarliest` | apps/api/src/database/migrations/1787690620000-IngestionAutomaticRetryBudget.ts:178-206 | after its last claim a tenant sorts by the earliest attempt and the earliest creation among its claimable jobs, both attained |
| `Queue.IngestionQueue.ClaimIngestionJob` | apps/api/src/database/migrations/1787690620000-IngestionAutomaticRetryBudget.ts:143-300 | refuses with the first failing check, else claims the first free job of the first free ready tenant for ninety seconds and writes one audit row. On the columns: the job was due, neither it nor its tenant was held and fewer than four jobs of the tenant were running, so four per tenant stay four; with nothing held it claims nothing only if no tenant below four has a job to claim. A NULL lease length ends in the lease CHECK, with nothing changed |
| `Queue.IngestionQueue.ClaimChecked` | apps/api/src/database/migrations/1787690620000-IngestionAutomaticRetryBudget.ts:175-264 | the part of the claim after the argument checks, with the same law on the columns |
| `Queue.IngestionQueue.ClaimJobOf` | apps/api/src/database/migrations/1787690620000-IngestionAutomaticRetryBudget.ts:219-264 | the second statement: the first claimable unlocked job of the chosen tenant, and only if fewer than four of its jobs are running; nothing only if four are or no job waits |
| `Queue.ClaimObeysLaw` | apps/api/src/database/migrations/1787690620000-IngestionAutomaticRetryBudget.ts:175-264 | the law the claim obeys, on the columns of the rows: who may be picked, that no unlocked job of the same tenant goes before it, the written row, that at most four per tenant run if they did before, and when nothing is picked |
| `Queue.ServedInOrder` | apps/api/src/database/migrations/1787690620000-IngestionAutomaticRetryBudget.ts:178-206 | no free tenant with room and a waiting job goes before the served one: later last claim with NULL first, then earliest attempt, earliest creation and tenant id, each read from the rows |
| `Queue.ArgumentsThatPass` | apps/api/src/database/migrations/1787690620000-IngestionAutomaticRetryBudget.ts:143-172 | the call goes ahead exactly with well-formed and different worker and token, at least one accepted source, no lease length or 90, four attempts, three retries and a cap of four |
| `Queue.IngestionQueue.HeartbeatJob` | apps/api/src/modules/ingestion/services/ingestion-job.repository.ts:245-288 | renews only the live lease of its holder to ninety seconds from now, reports a requested cancellation, and otherwise changes nothing |
| `Queue.IngestionQueue.Execute` | apps/api/src/modules/ingestion/services/ingestion-job.repository.ts:290-610 | each remaining single-row statement writes its one row of its own tenant, by its law on the columns, and its one audit row, or nothing |
| `Queue.BoundedBypass` | apps/api/src/database/migrations/1787690620000-IngestionAutomaticRetryBudget.ts:175-217 | with no tenant lock held and an advancing claim clock, a tenant that stays ready among N tenants is passed over fewer than N times, whatever other statements happen in between |
| `Queue.BypassSpendsOne` | apps/api/src/database/migrations/1787690620000-IngestionAutomaticRetryBudget.ts:202-206 | each bypass removes exactly the served tenant from those not served after the waiting one |
| `Queue.StatementsKeepClaims` | apps/api/src/modules/ingestion/services/ingestion-job.repository.ts:290-610 | no statement but a claim changes the claim history the fairness order reads |
| `Items.PartsSumToTotal` | apps/api/src/database/migrations/1787690600000-FiscalIngestionFoundation.ts:405-409 | because of the item CHECKs the eight counted classes always sum to the total |
| `Items.CountShows` | apps/api/src/database/migrations/1787690620000-IngestionAutomaticRetryBudget.ts:855-887 | each of the nine aggregates is the number of the job's items with the status or product it is named after |
| `Items.OneProductMoves` | apps/api/src/database/migrations/1787690620000-IngestionAutomaticRetryBudget.ts:855-887 | changing one item's product moves exactly one from the counter of the old product to that of the new |
| `Items.CacheAgrees` | apps/api/src/database/migrations/1787690610000-FiscalRlsWorkerClaims.ts:365-406 | over any sequence of item changes, full recounts, admissions, job updates and finalisations, in a job not marked dirty each of the nine counters is the number of its items with that status or product; `Archives.CacheAgrees` adds the partial recounts |
| `Items.PublishedMeansFinished` | apps/api/src/database/migrations/1787690700000-PhaseOneCfdiDomain.ts:716-722 | for such a job the publication boundary means exactly: manual_xml, at least one item, all items finished |
| `Items.FinalisationConserves` | apps/api/src/database/migrations/1787690900000-PhaseTwoZipIngestion.ts:67-87 | every item ends finished, finished ones are untouched, none is lost, internal errors grow by exactly the unfinished items, every other product keeps its items, and the written counters are the recount |
| `Items.FinalisationIsLocal` | apps/api/src/database/migrations/1787690900000-PhaseTwoZipIngestion.ts:69-78 | the aggregates of every other job are unchanged |
| `Items.TerminalisingTwiceIsOnce` | apps/api/src/modules/ingestion/services/ingestion-job.repository.ts:675-739 | the worker terminalising after the trigger changes no item |
| `Items.PartialRecountAgreesIff` | apps/api/src/modules/sat-download/sat-metadata.processor.ts:99-109 | the SAT worker's partial recount leaves a true cache if and only if the five counters it does not touch were true before |
| `Archives.CacheAgrees` | apps/api/src/modules/cfdi/workers/archive-job.processor.ts:98-195 | over any interleaving of archive workers, claimed and stopped anywhere, with all other item, job and counter writers, in every job not marked dirty each of the nine counters is the number of its items with that status or product, partial recounts included |
| `Archives.PartialRecountIsEnough` | apps/api/src/modules/sat-download/sat-metadata.processor.ts:99-109 | after any such run an entry that is parsed finds each of the nine counters equal to the number of its items and leaves them so, although it recounts four |
| `Archives.ParsingStartsTrue` | apps/api/src/modules/cfdi/workers/zip-worker-persistence.service.ts:241-286 | an entry still open when it is parsed was extracted in this session, so a full recount came after the last reservation |
| `Archives.NextKeepsInv` | apps/api/src/modules/cfdi/workers/zip-worker-persistence.service.ts:164-286 | reserving, extracting, parsing and a new claim keep that, and so does everything other clients do |
| `Archives.FirstAttemptParses` | apps/api/src/modules/cfdi/workers/archive-job.processor.ts:106-192 | such entries are met: a first attempt on a package with one metadata text reaches a parsing that writes |
| `Archives.ExtractionWrites` | apps/api/src/modules/cfdi/workers/zip-worker-persistence.service.ts:241-286 | an extracted metadata text waits, an XML has ended invalid and anything else unsupported, each with its code, and the job shows the counts of its items |
| `Archives.ParsingWrites` | apps/api/src/modules/sat-download/sat-metadata.processor.ts:99-104 | only an open metadata text is parsed and only after everything was extracted; it ends invalid with its error or else incorporated, and no other item changes |
| `Publication.EndedStaysEnded` | apps/api/src/modules/cfdi/workers/cfdi-worker-persistence.service.ts:128-141 | no update of an item in the source reopens an ended item or moves it to another job |
| `Publication.WritersLeave` | apps/api/src/modules/cfdi/workers/cfdi-worker-persistence.service.ts:128-141 | of the rows PostgreSQL accepts: only open items are started, unpacked or terminalised, and a finished one carries an error code exactly if it was neither incorporated nor a duplicate |
| `Publication.PublishedIsNeverCancelled` | apps/api/src/database/migrations/1787690700000-PhaseOneCfdiDomain.ts:712-756 | over every run of all writers of items, jobs and counters, a manual_xml job whose clean row shows every item finished stays uncancelled, its items stay finished and every later request is refused |
| `Objects.Follows` | apps/api/src/database/migrations/1787690600000-FiscalIngestionFoundation.ts:121-183 | along any accepted history, which state can follow which, and that location and bytes stay |
| `Objects.HistoryIsOneWay` | apps/api/src/database/migrations/1787690600000-FiscalIngestionFoundation.ts:99-183 | pending_upload is never entered again nor uploaded from a later state, deleted is absorbing, rejected leads only to deleted, available is never rejected directly, bytes and hash are fixed from the first exit from pending_upload, and every row has the stamps and bytes its state asks for |
| `Objects.FollowingIsReachable` | apps/api/src/database/migrations/1787690600000-FiscalIngestionFoundation.ts:163-171 | that bound is exact: each allowed pair is joined by legal transitions |
| `ReconcilerRuns.StatementSpends` | apps/api/src/database/migrations/1787690620000-IngestionAutomaticRetryBudget.ts:492-1065 | each statement, with any batch of its candidates, takes the batch out of a finite amount of work and adds none |
| `ReconcilerRuns.UpdatesAreBounded` | apps/api/src/database/migrations/1787690620000-IngestionAutomaticRetryBudget.ts:492-1065 | any statements in any order at a frozen clock update at most that many rows |
| `ReconcilerRuns.PassMakesProgress` | apps/api/src/database/migrations/1787690620000-IngestionAutomaticRetryBudget.ts:492-1065 | a pass over tables not at rest updates something |
| `ReconcilerRuns.PassesTerminate` | apps/api/src/database/migrations/1787690620000-IngestionAutomaticRetryBudget.ts:428-1080 | the number of passes that find anything to do is bounded by the work at the start, even when the batch limit binds |
| `ReconcilerRuns.TwoPassesSuffice` | apps/api/src/database/migrations/1787690620000-IngestionAutomaticRetryBudget.ts:492-1065 | when neither limit nor locks bind, after two passes no phase has a candidate |
| `ReconcilerRuns.OnePassIsNotEnough` | apps/api/src/database/migrations/1787690620000-IngestionAutomaticRetryBudget.ts:636-813 | a store whose rows satisfy their CHECKs, a job still awaiting an upload that expired, where one pass ends with the object still to be rejected because its job was failed later in the pass |
| `ReconcilerRuns.SuchAStoreExists` | apps/api/src/modules/ingestion/services/ingestion-idempotency.repository.ts:973-1016 | rows that satisfy their CHECKs and have that shape exist: a job may be admitted awaiting its upload, without the readiness check |
| `ReconcilerSafety.ObjectWritesAccepted` | apps/api/src/database/migrations/1787690620000-IngestionAutomaticRetryBudget.ts:636-699 | every stored-object row the reconciler writes is accepted by the lifecycle trigger and the CHECKs; every rejection is a legal step |
| `ReconcilerSafety.UploadWritesChecked` | apps/api/src/database/migrations/1787690620000-IngestionAutomaticRetryBudget.ts:595-632 | every upload row it writes satisfies the upload CHECKs |
| `ReconcilerSafety.FinalCountersTrue` | apps/api/src/database/migrations/1787690900000-PhaseTwoZipIngestion.ts:73-79 | in a set-based UPDATE too, each counter the finaliser writes is the number of the job's items with that status or product |
| `ReconcilerSafety.RunShowsCounts` | apps/api/src/database/migrations/1787690620000-IngestionAutomaticRetryBudget.ts:816-930 | after any run of statements from well-formed tables, in every job not marked dirty each of the nine counters is the number of its items with that status or product |
| `ReconcilerSafety.StatementKeepsWellformed` | apps/api/src/database/migrations/1787690620000-IngestionAutomaticRetryBudget.ts:492-1065 | every statement keeps the CHECKs of jobs, items, uploads and objects, the retry budget and the truth of clean counters |
| `ReconcilerSafety.RunKeepsWellformed` | apps/api/src/database/migrations/1787690620000-IngestionAutomaticRetryBudget.ts:492-1065 | so does every run of statements |
| `ReconcilerSafety.NothingIsTakenBack` | apps/api/src/database/migrations/1787690620000-IngestionAutomaticRetryBudget.ts:595-1065 | over any run of statements no retention date is postponed, no report stamp is rewritten, no closed upload is reopened, and location, hold and bytes stay |
| `ReconcilerSafety.OneRowUpdate` | apps/api/src/database/migrations/1787690900000-PhaseTwoZipIngestion.ts:94-96 | the set-based UPDATE with its row trigger equals the single-row update |
| `ReconcilerLaws.RunsAreLawful` | apps/api/src/database/migrations/1787690620000-IngestionAutomaticRetryBudget.ts:492-1065 | over any run with any batches, on the columns: an object newly reported redundant is a day old and its items, at least one, are all finished duplicates; a rejected one has no open or confirmed upload and no job that has not ended; an eligible one is past its date, not on hold and not the root of a waiting or running job; an expired upload was overdue and a reported one has no job; a job changes status only if its lease expired or its input is lost |
| `ReconcilerLaws.TwoPassesBringRest` | apps/api/src/database/migrations/1787690620000-IngestionAutomaticRetryBudget.ts:492-1065 | after two passes without limit or locks no row asks for anything: no expired lease, lost input, stale counter, overdue or jobless upload, abandoned, redundant or expired object is left |
| `ReconcilerLaws.RejectionWrites` | apps/api/src/database/migrations/1787690620000-IngestionAutomaticRetryBudget.ts:688-700 | a rejected row gets the reason that tells an expired upload from an abandoned object, and seven days unless it had a date |
| `ReconcilerLaws.RedundancyWrites` | apps/api/src/database/migrations/1787690620000-IngestionAutomaticRetryBudget.ts:983-992 | a redundant row may go at once, or at its earlier date |
| `ReconcilerLaws.RepairWrites` | apps/api/src/database/migrations/1787690620000-IngestionAutomaticRetryBudget.ts:888-930 | a repaired row shows the counts of its items, and its version grows exactly when it did not before |
| `ReconcilerLaws.UpdateRetains` | apps/api/src/database/migrations/1787690900000-PhaseTwoZipIngestion.ts:80-86 | what any update of jobs does to retention: thirty days for the package of a ZIP job it ends, a day at most for what was extracted for one that fails or is cancelled unless available or infected, nothing else |
| `FiscalStore.FirstBatch` | apps/api/src/database/migrations/1787690620000-IngestionAutomaticRetryBudget.ts:497-499 | returns the first hundred (or all) candidates, in order and distinct: nothing left out sorts before anything taken |
| `FiscalStore.Tables.WriteItem` | apps/api/src/database/migrations/1787690610000-FiscalRlsWorkerClaims.ts:365-406 | an item statement with its trigger: accepted exactly if product, completion and error code fit the status; then the item is written and its old and new parent marked, and nothing else changes |
| `FiscalStore.Tables.WriteJob` | apps/api/src/database/migrations/1787690900000-PhaseTwoZipIngestion.ts:67-96 | a job statement with the ZIP finaliser: only the end of a ZIP job rewrites items, every unfinished one into an internal error with ZIP_CANCELLED, the job's code or the default, and the counters become those of the items |
| `FiscalStore.Tables.RunStatement` | apps/api/src/database/migrations/1787690620000-IngestionAutomaticRetryBudget.ts:492-559 | one reconciler statement on the rows that PostgreSQL takes when others hold some |
| `FiscalStore.Tables.Reconcile` | apps/api/src/database/migrations/1787690620000-IngestionAutomaticRetryBudget.ts:428-1080 | refuses with the first failing check and no change, else executes the eight statements in order and returns the ten counts of what they did. Each takes the oldest free rows of its order, all of them or a hundred, and every row changed meets the law of `ReconcilerLaws.RunsAreLawful` |
| `FiscalStore.SettingsThatPass` | apps/api/src/database/migrations/1787690620000-IngestionAutomaticRetryBudget.ts:466-490 | a call goes ahead exactly with limit 100, 60 minutes, 24 hours, 7 days, delays of 10, 30 and 120 seconds, four attempts, three retries and a jitter between 0 and 50 percent |
| `FiscalStore.BatchesAreOldest` | apps/api/src/database/migrations/1787690620000-IngestionAutomaticRetryBudget.ts:497-499 | each statement of a call takes at most a hundred of its free candidates, all of them if there are fewer, and leaves none that is due earlier by the column of its ORDER BY, ties included |
| `FiscalStore.RecoveredSplit` | apps/api/src/database/migrations/1787690620000-IngestionAutomaticRetryBudget.ts:492-592 | the three lease counts add up to the recovered rows |
| `FiscalStore.UnheldRunsAreEager` | apps/api/src/database/migrations/1787690620000-IngestionAutomaticRetryBudget.ts:492-1065 | when nobody holds rows the real batches meet the progress condition, so the bound on passes applies to real calls |
| `FiscalStore.SmallPassIsFull` | apps/api/src/database/migrations/1787690620000-IngestionAutomaticRetryBudget.ts:492-1065 | when no phase meets more than a hundred candidates the real pass is the unlimited one, so two passes suffice |
| `ZipCleanup.ObjectStore.ClaimZipCleanup` | apps/api/src/database/migrations/1787690900000-PhaseTwoZipIngestion.ts:99-130 | on the columns of the tables: chooses and locks the first hundred free objects by retention with NULL last, all if there are fewer, whose time is up and which nobody uses; hands out exactly those that no job that has not ended, no CFDI and no open incident uses in the snapshot of their own update, writes them as rejected and stamped, and touches nothing else; or raises with nothing changed, exactly if one of those is available |
| `ZipCleanup.ObjectStore.SweepAll` | apps/api/src/database/migrations/1787690900000-PhaseTwoZipIngestion.ts:117-129 | the loop over the locked candidates |
| `ZipCleanup.ClaimsAreSafe` | apps/api/src/database/migrations/1787690900000-PhaseTwoZipIngestion.ts:118-128 | whatever was admitted in between, every object of a committed call was in the snapshot of the update that rejected it neither root nor item of a job of its tenant that has not ended, source of no CFDI and subject of no open incident; all others are untouched |
| `ZipCleanup.CommittedByColumns` | apps/api/src/database/migrations/1787690900000-PhaseTwoZipIngestion.ts:117-129 | and it hands out every candidate that nobody uses when its turn comes |
| `ZipCleanup.RaisesExactlyOnAvailable` | apps/api/src/database/migrations/1787690900000-PhaseTwoZipIngestion.ts:121-128 | the call raises if and only if some chosen object is available and still free at its turn, since the trigger forbids available to rejected |
| `ZipCleanup.CanRaiseIff` | apps/api/src/database/migrations/1787690900000-PhaseTwoZipIngestion.ts:103-128 | checkable before the call: it can raise at all if and only if some available object meets the conditions of the first statement |
| `ZipCleanup.UnpublishedAvailableAborts` | apps/api/src/database/migrations/1787690900000-PhaseTwoZipIngestion.ts:121-122 | the CHECKs and the trigger alone do not exclude it: an extracted object made available with a retention date and no CFDI aborts the call |
| `ZipCleanup.HandedOutWasFree` | apps/api/src/database/migrations/1787690900000-PhaseTwoZipIngestion.ts:121-128 | whatever a committed call hands out was so at its own index |
| `ZipCleanup.HandedOutFiveMinutesApart` | apps/api/src/database/migrations/1787690900000-PhaseTwoZipIngestion.ts:108-108 | over any run of committed calls an object is not handed out again until more than five minutes later |
| `Availability.CleanupNeverRaises` | apps/api/src/modules/cfdi/workers/cfdi-worker-persistence.service.ts:414-495 | after any run of the writers of stored objects, the reconciler and the cleanup itself, no call raises, since an object becomes available only in the transaction that inserts its CFDI |
| `Availability.PublishedIsNeverCleaned` | apps/api/src/database/migrations/1787690900000-PhaseTwoZipIngestion.ts:126-126 | once an object is the source of a CFDI, over any continuation no committed call claims it |
| `Availability.NextKeepsSourced` | apps/api/src/modules/cfdi/workers/cfdi-worker-persistence.service.ts:171-196 | every writer keeps every available object the source of a CFDI |
| `Availability.WritersMove` | apps/api/src/modules/cfdi/workers/cfdi-worker-persistence.service.ts:171-196 | of the rows PostgreSQL accepts: bytes arrive once and before the scan, an available object is never discarded, and only a publication makes one available, of a scanned object |
| `Availability.ReconcilerMakesNothingAvailable` | apps/api/src/database/migrations/1787690620000-IngestionAutomaticRetryBudget.ts:636-699 | no reconciler statement makes an object available that was not |
| `Backfill.BackfillIsExact` | apps/api/src/database/migrations/1787690620000-IngestionAutomaticRetryBudget.ts:21-71 | after any run of the old queue neither abort guard fires, each job gets exactly the retries it was granted, at most its attempts and at least one if it waits for a retry, and every row satisfies the new queue's budget |
| `Backfill.MigrationByRows` | apps/api/src/database/migrations/1787690620000-IngestionAutomaticRetryBudget.ts:21-71 | on any tables each job gets the number of its audit rows that say failed_retryable, three at most, and the migration stops exactly if a job waiting for a retry has none or one has more than its attempts |
| `Backfill.OldStatementsInFigures` | apps/api/src/database/migrations/1787690610000-FiscalRlsWorkerClaims.ts:823-880 | the old queue on the columns: a claim below three attempts, a failure final after three and else due after the delay of its attempt, a recovery, and a cancellation of any job that had not ended |
| `Backfill.OldQueueCancelsPublished` | apps/api/src/database/migrations/1787690610000-FiscalRlsWorkerClaims.ts:702-721 | the old cancellation has no publication boundary: it cancels a waiting published job that the current one refuses |
| `Backfill.FailOldSound` | apps/api/src/database/migrations/1787690610000-FiscalRlsWorkerClaims.ts:832-880 | one failure of the old queue grants a retry exactly when its audit row says failed_retryable, and never a third |
| `Backfill.NextKeepsInv` | apps/api/src/database/migrations/1787690610000-FiscalRlsWorkerClaims.ts:823-903 | every move of the old queue keeps the audit log in step with the retries granted |
| `Payments.LicenseRegister.ApplySnapshot` | apps/api/src/database/migrations/1793404800000-PaymentsSnapshots.ts:8-37 | refuses exactly the deliveries whose values are not sound, with nothing changed; else stores exactly the delivered row if there is none or an older revision, and says whether it did |
| `Payments.AcceptedExactlyIfSound` | apps/api/src/database/migrations/1793404800000-PaymentsSnapshots.ts:11-29 | on the JSON values: revision from 1, confirmed at most five minutes ahead, a licence object of the product with a truth value for active, a subscription, if any, of the same product and organisation, and, if active is true, one that reads the same id and plan |
| `Payments.FirstOfTheNewest` | apps/api/src/database/migrations/1793404800000-PaymentsSnapshots.ts:30-36 | after any deliveries each key holds exactly the first accepted one with its highest revision, and only keys with an accepted delivery hold anything |
| `Payments.OrderDoesNotMatter` | apps/api/src/database/migrations/1793404800000-PaymentsSnapshots.ts:30-36 | if no revision comes with two contents, two runs with the same accepted contents store the same content, whatever order and repetition |
| `Payments.TieKeepsTheFirst` | apps/api/src/database/migrations/1793404800000-PaymentsSnapshots.ts:35-35 | two deliveries of one revision commute if and only if they carry the same content |
| `Payments.ActiveLicensesAreBacked` | apps/api/src/database/migrations/1793404800000-PaymentsSnapshots.ts:17-29 | over any run, on the JSON values: a licence stored from a snapshot whose active member is true has a subscription that reads the same id and plan, of its own organisation and product |
| `Tags.TagPattern` | infra/deploy/balanz-deploy.py:15-15 | the part-by-part reading accepts exactly the texts of the pattern |
| `Tags.VersionIsInjective` | infra/deploy/balanz-deploy.py:165-166 | two tags have the same version only if they are the same tag |
| `Tags.DifferentTagsAreOrdered` | infra/deploy/balanz-deploy.py:165-166 | two different tags are strictly ordered one way |
| `Tags.LowerByParts` | infra/deploy/balanz-deploy.py:165-166 | the tag with decimals a, b, c is lower than the one with x, y, z exactly if a is below x, or they are equal and b is below y, or both are equal and c is below z |
| `Tags.OlderIsLower` | infra/deploy/balanz-deploy.py:165-166 | so the order of version triples is the numeric order of the decimals the tags spell |
| `Tags.ValueAppends` | infra/deploy/balanz-deploy.py:165-166 | the value is positional: another digit multiplies by ten and adds the digit |
| `Tags.DecimalPattern` | infra/deploy/balanz-deploy.py:15-15 | a decimal is a lone zero or digits of which the first is not zero |
| `Tags.ValueIsInjective` | infra/deploy/balanz-deploy.py:15-15 | decimals without leading zeros are determined by their value |
| `Deploy.DeployRoot.PerformOperation` | infra/deploy/balanz-deploy.py:173-288 | one operation: directories, links, services and log are exactly those of the stage-by-stage specification for every failure and kill. Once placed, a deploy is refused exactly if the decimals of its tag are below those of the current one, a rollback exactly if they are not or if the schema changes unacknowledged, a migration exactly without a confirmed backup; a refusal leaves links, services and log alone |
| `Deploy.DeployRoot.PlaceBundle` | infra/deploy/balanz-deploy.py:177-187 | placing a bundle: reuse, refuse, leave a partial copy, or rename |
| `Deploy.DeployRoot.RecoverOld` | infra/deploy/balanz-deploy.py:268-283 | the recovery branch after a start that raised |
| `Deploy.DeployRoot.Activate` | infra/deploy/balanz-deploy.py:284-287 | the two links and the final record |
| `DeployRuns.ReleasesNeverChange` | infra/deploy/balanz-deploy.py:179-187 | over any run a release directory never changes once it exists and the log only grows |
| `DeployRuns.StepMovesCurrent` | infra/deploy/balanz-deploy.py:261-287 | an act that changes current passed the schema check and the start, completed, serves the new release and left previous on the old one |
| `DeployRuns.CurrentWasStarted` | infra/deploy/balanz-deploy.py:284-287 | over any run current is where it was or on a release some act started successfully |
| `DeployRuns.FailedStartKeepsLinks` | infra/deploy/balanz-deploy.py:253-283 | an act that does not bring its release up leaves both links alone and does not complete, and a migration or failed schema check leaves the services alone |
| `DeployRuns.RecoveryServesTheOld` | infra/deploy/balanz-deploy.py:266-283 | after a start that raised, the old release serves again if and only if schemas agree and both recovery steps passed, which is exactly when it is recorded |
| `DeployRuns.StepMovesVersion` | infra/deploy/balanz-deploy.py:192-198 | only a rollback makes an older tag current, by the decimals, and one that completes does |
| `DeployRuns.DeploysNeverLower` | infra/deploy/balanz-deploy.py:197-198 | over any run without rollbacks the current tag is never older than at the start, by the decimals, whatever fails |
| `DeployRuns.PreviousIsAnotherRelease` | infra/deploy/balanz-deploy.py:284-286 | on any run previous equals current if and only if the last act that replaced previous died before replacing current |
| `DeployRuns.RedeployKeepsTwin` | infra/deploy/balanz-deploy.py:284-286 | a later completed deploy of the current release does not repair that |
| `DeployRuns.AbandonedTagIsLost` | infra/deploy/balanz-deploy.py:182-187 | after a copy cut short, every further operation on that tag is refused |
| `DeployRuns.AbandonedExactlyByACut` | infra/deploy/balanz-deploy.py:182-187 | on any run a tag is abandoned if and only if some act was cut while copying it |
| `Permissions.FragmentIsResolve` | apps/api/src/common/auth/authorization-contract.ts:25-32 | with at most one active override the SQL fragment decides exactly as the precedence function |
| `Permissions.TwoOverridesDisagree` | apps/api/src/database/migrations/1787690050000-AuthorizationModel.ts:224-225 | an override read as grant decides as the fragment does if and only if no active deny stands beside it: what the unique index is for |
| `Permissions.EfirmaMatchesResolve` | apps/api/src/database/migrations/1787691000000-PhaseThreeEfirmaCustody.ts:95-117 | the whole predicate is its conditions on the columns (open session verified by a second factor, unexpired and used within the idle limit, active factor, user, organisation, member, account and entity, ownership or assignment) and the precedence function for credentials.manage |
| `Permissions.AuthorisedHasSession` | apps/api/src/database/migrations/1787691000000-PhaseThreeEfirmaCustody.ts:95-117 | whoever is authorised has an unexpired session verified by a second factor, an active factor, a verified address, and is owner or assigned |
| `Permissions.SatMatchesResolve` | apps/api/src/database/migrations/1787691100000-PhaseFourSatOnDemand.ts:57-64 | it is efirma_authorized, an open job of the same subject and the precedence function for sat.download |
| `Permissions.MonthlyMatchesResolve` | apps/api/src/database/migrations/1787691200000-PhaseFiveMonthlyWorkspace.ts:9-15 | it is the precedence function, where the role default of cfdi.categories.manage counts for the owner only |
| `Permissions.EfirmaImpliesMonthly` | apps/api/src/database/migrations/1787691200000-PhaseFiveMonthlyWorkspace.ts:9-15 | for a membership acting as itself the first predicate implies the third for its permission |
| `Permissions.DenyNeverEnables` | apps/api/src/database/migrations/1787691000000-PhaseThreeEfirmaCustody.ts:112-113 | adding a deny row for anyone never enables any of the three |
| `Permissions.DenyDisables` | apps/api/src/database/migrations/1787691000000-PhaseThreeEfirmaCustody.ts:112-113 | an active deny row disables what it names, whatever grants and roles say |
| `Metrics.KeyIsInjective` | apps/api/src/common/observability/fiscal-metrics.service.ts:417-447 | two accepted updates share a key only if they are of the same metric with the same labels |
| `Metrics.UsableExactlyWithSafeLabels` | apps/api/src/common/observability/fiscal-metrics.service.ts:224-225 | a metric can be updated by some labels if and only if each of its labels is one of the six safe names and has a safe value |
| `MetricTable.FiscalIsTidy` | apps/api/src/common/observability/fiscal-metrics.service.ts:18-220 | the table as declared has names without a bar, distinct labels and ascending bounds, which is what the keys and the rendering rely on |
| `MetricTable.OnlySatCallsIsUnusable` | apps/api/src/common/observability/fiscal-metrics.service.ts:18-305 | of the declared metrics exactly sat_external_calls_total accepts no labels at all; every other one accepts some |
| `MetricTable.SatCallsAreNeverCounted` | apps/api/src/common/observability/fiscal-metrics.service.ts:19-23 | every update of sat_external_calls_total is refused, whatever its labels and number |
| `MetricRegistry.FiscalMetrics.AddTo` | apps/api/src/common/observability/fiscal-metrics.service.ts:325-339 | a counter update: the first failing check with nothing changed, or the new total |
| `MetricRegistry.FiscalMetrics.SetTo` | apps/api/src/common/observability/fiscal-metrics.service.ts:341-351 | a gauge update |
| `MetricRegistry.FiscalMetrics.ObserveValue` | apps/api/src/common/observability/fiscal-metrics.service.ts:353-380 | a histogram observation |
| `MetricRegistry.FiscalMetrics.KeyFor` | apps/api/src/common/observability/fiscal-metrics.service.ts:417-447 | the label checks, the key and the remembered labels |
| `MetricRegistry.RegistryIsTheLog` | apps/api/src/common/observability/fiscal-metrics.service.ts:325-380 | after any updates each counter is the total of its accepted increments, each gauge the last value set, each histogram the count, the sum and per bound the number of its observations at or below it |
| `MetricRegistry.BucketsAreCumulative` | apps/api/src/common/observability/fiscal-metrics.service.ts:372-378 | buckets never decrease from one bound to the next and none exceeds the count |
| `MetricRegistry.NothingDecreases` | apps/api/src/common/observability/fiscal-metrics.service.ts:325-380 | over any run no counter decreases and no histogram loses from its count, sum or buckets |
| `MetricRegistry.AcceptedExactly` | apps/api/src/common/observability/fiscal-metrics.service.ts:325-447 | an update is accepted exactly if it fits the kind, its number is finite and not negative unless a gauge, and its labels are those of the metric, each one of six names with a short plain value that the table allows |
| `MetricRegistry.EachKeyIsRenderedOnce` | apps/api/src/common/observability/fiscal-metrics.service.ts:382-413 | every stored key is rendered under exactly one metric, the one it was updated for, with the labels it was updated with |

## Left out

Abstractions of the queue:

- JobRuns.RetryBudget: the worker's fenced statements are the ones of `ingestion-job.repository.ts`; each statement is one atomic step at one
  clock reading, so two readings of `clock_timestamp()` inside a statement are equal and a statement that is still uncommitted is not
  visible to others. Row-lock waiting and re-evaluation after a wait are not modelled.
- TenantCap.CapHolds: advisory locks are keyed by tenant; collisions of their hashes are not modelled (they only make claims wait for more tenants).
- Queue.BoundedBypass: assumes that no other claimer holds a tenant's lock while a claim looks for a tenant, and that the claim clock advances;
  with contention a tenant whose lock is always held can be passed over without bound. `Queue` executes the two statements of a claim on
  one table; `TenantCap` is where they see different ones.
- Backfill.BackfillIsExact: the worker code of the old queue is not part of the repository; its retry step is the old reconciler's rule, with one audit row for
  every retryable failure as the migration assumes. Audit rows about retries are written by these steps only.
- JobRuns.PublishedIsNeverCancelled: concerns one row and assumes what its recounts say; `Publication.PublishedIsNeverCancelled` is the statement about jobs and items.
- Items.CacheAgrees: the SAT worker's partial recount is not among its moves; `Archives.CacheAgrees` has them all.
- Archives.CacheAgrees: which entry an item stands for is the item id, since `(job, ordinal)` is unique; that a new claim makes the fence refuse the old holder
  is `JobRuns.OnlyTheHolderWrites`; scanning, hashing and the bytes of the entries are left out, and an entry may be parsed in any order.
- Availability.CleanupNeverRaises: assumes that the first snapshot of the call sees every committed CFDI; CFDIs are never deleted or moved, as no statement of the
  repository does so.
- ReconcilerRuns.PassesTerminate: at a frozen clock with no other client writing in between, which is the setting of the promise.
- ReconcilerSafety.RunKeepsWellformed: of the CHECKs of jobs, items, uploads and objects it covers those on the modelled columns; formats of keys, hashes and
  names, idempotency columns, foreign keys and unique indexes are not modelled.
- ZipCleanup.HandedOutFiveMinutesApart: between calls, statements of other clients keep cleanup stamps; during a call other object rows do not change.
- Jobs.RetryWaitRange: the random number is any real in [0, 1), not a distribution; floating-point rounding is not modelled.
- `current_stage`, `last_error_detail`, result columns of a claim such as the queue age, `ingestion_queue_ages`, and the metadata of audit rows of
  the current queue.
- Trigger re-entrancy: the ZIP finaliser's own UPDATE of items would fire the dirty trigger on the job row that is being written; here the finaliser's
  counters and mark are the last write, as its text intends.
- Uuids are natural numbers; their order stands for the uuid order, and the nil uuid is 0.

Abstractions of the smaller parts:

- Payments.FirstOfTheNewest: the text form of a uuid is a given map, and the printed form of nested JSON is carried with the value; two writers of one key are
  serialised. The older function `payments_apply_license` and the table itself belong to a package outside the repository.
- DeployRuns.CurrentWasStarted: Docker, the probes and the network are outcomes of each step; appending to the log does not fail; release directories are changed by
  nothing else. The checks of `host_settings` and the checksums inside `read_manifest` are one outcome each, and `bundle` and `validate` are left out.
- DeployRuns.RecoveryServesTheOld: a step that is killed leaves no record and nothing known to be serving.
- Permissions.EfirmaMatchesResolve: NULL results and NULL arguments count as not authorised; a malformed setting, which makes the cast raise, is not modelled.
  `invalidate_efirma_session_authority`, `monthly_scope`, `monthly_arrival` and the SAT immutability trigger are left out.
- MetricRegistry.RegistryIsTheLog: numbers are reals, so sums do not round; `NaN` and infinities are one refused value.
- Metrics.KeyIsInjective: holds for every tidy table; `MetricTable.FISCAL` is the declared one, with the labels listed in the order sort() leaves them. Sorting
  itself, the help texts and the text of the rendered page are left out.

Not modelled at all, because it adds no protocol or only easy members: role and row-level-security DDL, `down` migrations, object storage, malware scanning,
CFDI parsing, the SAT web service, Redis wake-ups, HTTP controllers and the web application.
