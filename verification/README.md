# CSV product import service — a Dafny model

This project models the core of a product-catalogue web service. The service
accepts a CSV upload and stages the file. A background task then reads it,
normalises each row and upserts the products in batches of 1000. While it runs,
the import task checkpoints its counters on the upload job and publishes progress
snapshots, which a Server-Sent-Events endpoint relays to the client. Around this
pipeline the model also covers the product and webhook CRUD endpoints and the
webhook dispatch that announces product and import events.

The database is one `Store` object (`store.dfy`). Its fields are updated in place
by the operations:

- the `products` table, as a map from lower-case sku to row, plus the next serial id;
- the `upload_jobs` and `webhooks` tables;
- the staged files;
- the import task queue;
- the progress channel (the snapshots published so far);
- the outbox (every webhook POST made, with whether it was answered).

There is one module per core source file, plus `Store`, `Text` and `Wrappers`, which have no source file of their own:

- `csv_processor.dfy`: row ingest, batching, upsert, checkpoints;
- `import_tasks.dfy`: the background task;
- `upload.dfy`: upload intake, status read and SSE relay;
- `products.dfy` (`Products`) and `webhooks.dfy` (`WebhooksApi`): the two routers;
- `webhook_service.dfy`: target selection and sending;
- `models.dfy` and `schemas.dfy`: records, column bounds, the cast of text to a job's `uuid` id, and request validation;
- `store.dfy`: the database as one object, and the error types;
- `wrappers.dfy`: `Option` and `Result`;
- `text.dfy`: `strip`, `lower` and substring search.

Operations that change the database are methods with field-level `modifies`
frames. Each one is proved equal to a specification function over values
(`CreateOutcome`, `UpdateOutcome`, `Intake`, `TryImport`, `ImportRun`, `Relay`, …).
The promised properties are then proved as lemmas about those functions.

The row loop of `process_csv_content` is an imperative loop split into
`ReadRow`, `AddRecord`, `FlushBatch` and `Finish`. Its invariant states that:

- the open batch is what follows the last full batch;
- the table, the job row and the progress channel are exactly those produced by
  replaying the committed full batches (`Trace`).

Inputs the model cannot see are parameters:

- the CSV tokenizer, a `Parser` from bytes to rows;
- which webhook URLs answer, a `reachable` predicate;
- the outcome of the test POST;
- a `Fault` injected into upload staging;
- the sequence of polls the relay observes.

## Model

| member | source | states |
|---|---|---|
| Text.TrimLeft | app/services/csv_processor.py:48-50 | `lstrip` removes exactly the leading white space: the result is a suffix, does not start with a space, and every dropped character is a space |
| Text.TrimRight | app/services/csv_processor.py:48-50 | `rstrip` removes exactly the trailing white space: the result is a prefix, does not end with a space, and every dropped character is a space |
| Text.TrimHasNoSpaceAtEnds | app/services/csv_processor.py:48-50 | a stripped value neither starts nor ends with white space |
| Text.TrimEmptyIffAllSpace | app/services/csv_processor.py:50 | stripping yields the empty string exactly for all-space input, which is when a description becomes NULL |
| Text.TrimIdempotent | app/api/products.py:101 | stripping twice is stripping once |
| Text.Lower | app/services/csv_processor.py:48 | `lower()` keeps the length and lower-cases each character on its own |
| Text.LowerIsLower | app/models/product.py:25-27 | lower-casing is idempotent, so a stored lower-cased sku equals its own `lower(sku)` index key |
| Text.LowerKeepsSpace | app/services/csv_processor.py:48 | lower-casing neither creates nor removes white space |
| Text.Contains | app/api/products.py:49 | the substring test holds iff the pattern occurs at some position |
| Models.StatusFromName | app/models/upload_job.py:19-21 | a status read back from a string is the status whose stored name is that string |
| Models.StatusNamesRoundTrip | app/models/upload_job.py:19-21 | every status, `uploading` included, is read back from its own name, so the six names are distinct |
| Models.NewJobDefaults | app/models/upload_job.py:22-26 | a new job row has all four counters at 0, no error message, the given id and status, and fits the filename column |
| Models.UuidDigits | app/models/upload_job.py:17 | the digits read from a `uuid` spelling are exactly the remaining count, all lower-case hex |
| Models.SpellingReadsBack | app/models/upload_job.py:17 | every spelling of hex digits, with hyphens only where a group of four ends, reads back as the lower-cased digits |
| Models.EverySpellingCasts | app/models/upload_job.py:17 | the cast to `uuid` accepts every spelling of a value (either case, any allowed hyphens, with or without braces) and gives all of them the same standard 8-4-4-4-12 form |
| Models.CanonicalUuidIsStable | app/models/upload_job.py:17 | the standard form casts to itself, so a stored id is found under its own text |
| Models.Uuid4TextIsCanonical | app/api/upload.py:150 | the text of a fresh `uuid4`, 32 lower-case digits in 8-4-4-4-12 form, is its own standard form |
| Models.NotAUuidFailsTheCast | app/models/upload_job.py:17 | text that spells no `uuid`, such as `not-a-uuid`, fails the cast |
| Models.CanonicalUuid | app/models/upload_job.py:17 | specification: PostgreSQL's cast of a path parameter to the `uuid` column type, `None` when the cast fails |
| Schemas.ProductCreateWithDefaults | app/schemas/product.py:11-14 | an omitted description is None and an omitted `active` is true; sku 1..255 and name 1..500 make the body valid |
| Schemas.WhitespaceSkuPassesValidation | app/schemas/product.py:11 | the length bound counts characters, so the sku `" "` is valid although it strips to `""` |
| Schemas.WebhookCreateWithDefaults | app/schemas/webhook.py:11-13 | an omitted `enabled` is true; url 1..2048 and event type 1..100 make the body valid |
| Schemas.TestResponseWithDefaults | app/schemas/webhook.py:41-47 | a test response naming only `success` has no status code, error or response time |
| Store.NoTwoSkusEqualIgnoringCase | app/models/product.py:25-27 | in a valid table, two distinct rows never have skus equal after lower-casing |
| WebhookService.PayloadEventsAreDocumented | app/services/webhook_service.py:12-19 | every product or import payload the service builds names an event from the list |
| WebhookService.AscendingSorted | app/services/webhook_service.py:35-39 | the selected ids are listed once each, strictly ascending, and nothing else is listed |
| WebhookService.SendWebhook | app/services/webhook_service.py:51-66 | one POST of the payload to the url; the delivery records whether the url answered and never raises |
| WebhookService.SendEach | app/services/webhook_service.py:46 | one delivery per selected webhook |
| WebhookService.SendEachAt | app/services/webhook_service.py:46 | delivery i goes to the i-th selected webhook's url with the shared payload |
| WebhookService.DispatchSendsToExactlyTheTargets | app/services/webhook_service.py:35-48 | the sends go exactly to the enabled webhooks whose event type equals the event, one each, in id order, all with the same payload |
| WebhookService.Dispatch | app/services/webhook_service.py:35-48 | specification: the deliveries of one event to its targets in id order |
| WebhookService.NoTargetsNothingSent | app/services/webhook_service.py:41-42 | with no enabled webhook for the event nothing is sent |
| WebhookService.UndocumentedEventIsStillSent | app/services/webhook_service.py:35-39 | an event name not in the list is still dispatched to a matching webhook |
| WebhookService.SendToEach | app/services/webhook_service.py:45-48 | the outbox grows by one delivery per target and by nothing else |
| WebhookService.TriggerWebhooks | app/services/webhook_service.py:22-48 | the outbox grows by the dispatch of the event to its targets; a failed send is recorded, not raised |
| WebhookService.TestWebhook | app/services/webhook_service.py:69-104 | success iff the POST was answered; an answered POST reports its status code and elapsed time; a timeout reports "Request timeout (> 5 seconds)" and 5.0 s; any other failure reports the exception text and elapsed time |
| WebhookService.TestReplyIdentifiesOutcome | app/services/webhook_service.py:86-104 | two POST outcomes with the same test reply are the same outcome, except that a timeout cannot be told from an error whose text is the timeout message after exactly 5.0 s |
| CsvProcessor.NormalisedShape | app/services/csv_processor.py:47-52 | a kept row becomes sku = lower(strip(sku)), name = strip(name), description = strip(description) or None when blank, active = true |
| CsvProcessor.WhitespaceSkuIsKeptAsEmpty | app/services/csv_processor.py:43-48 | the non-empty check runs before stripping, so an all-space sku is kept and becomes `""` |
| CsvProcessor.Ingest | app/services/csv_processor.py:41-54 | the loop keeps at most one record per row |
| CsvProcessor.IngestIsFilter | app/services/csv_processor.py:41-54 | without a row that raises, the kept records are exactly the rows with non-empty sku and name, normalised, in file order |
| CsvProcessor.IngestAllLower | app/services/csv_processor.py:48 | every kept sku is lower case |
| CsvProcessor.IngestStopsAtCrash | app/services/csv_processor.py:50 | once a row raises, later rows change nothing |
| CsvProcessor.IngestPrefix | app/services/csv_processor.py:41-55 | the records kept from a prefix of the file are a prefix of those kept from the whole file |
| CsvProcessor.IngestGrows | app/services/csv_processor.py:41-55 | one more row only appends to the kept records |
| CsvProcessor.ProcessedAtMostCounted | app/services/csv_processor.py:166-177 | the counted total includes every data row, so processed rows never exceed it |
| CsvProcessor.BatchesShape | app/services/csv_processor.py:57-70 | there are ceil(n/1000) batches, each of 1000 records but the last, which holds 1..1000, and together they are the records in order |
| CsvProcessor.BatchesAppendFull | app/services/csv_processor.py:57-63 | after a whole number of full batches, batching restarts cleanly |
| CsvProcessor.OneBatch | app/services/csv_processor.py:66-70 | 1..1000 records form one batch |
| CsvProcessor.NoRejectionIff | app/services/csv_processor.py:98-107 | the upsert statement succeeds iff every value fits its column and no sku repeats within the batch |
| CsvProcessor.UpsertKeys | app/services/csv_processor.py:98-106 | after the upsert the keys are the old keys plus the batch skus, and the serial has advanced once per proposed row, existing skus included, because the id default is evaluated before the conflict check (so ids have gaps) |
| CsvProcessor.UpsertLeavesOthers | app/services/csv_processor.py:98-108 | a stored product whose sku is not in the batch is unchanged |
| CsvProcessor.UpsertEffect | app/services/csv_processor.py:98-106 | an existing sku gets the batch's name and description and keeps its id, sku and `active`; a new sku takes every field from the batch and a fresh id |
| CsvProcessor.UpsertRowValid | app/models/product.py:25-27 | upserting one fitting lower-case record keeps the table valid |
| CsvProcessor.UpsertValid | app/models/product.py:25-27 | upserting a batch of fitting lower-case records keeps the table valid |
| CsvProcessor.DistinctSkuCount | app/services/csv_processor.py:92 | a batch without repeated skus has as many distinct skus as records |
| CsvProcessor.ExistingAreStoredBatchSkus | app/services/csv_processor.py:92-95 | the existing count is the number of stored keys among the batch skus |
| CsvProcessor.UpsertCounts | app/services/csv_processor.py:92-112 | updated is at most the batch size, and the table grows by exactly the created count |
| CsvProcessor.UpsertIdempotent | app/services/csv_processor.py:98-106 | upserting the same batch twice leaves the rows as upserting it once; only the serial moves on, by the batch size |
| CsvProcessor.ReimportIsAllUpdates | app/services/csv_processor.py:92-112 | re-sending a batch that was just upserted counts every record as updated |
| CsvProcessor.CommitTracked | app/services/csv_processor.py:58-61 | through any run of batches, the last checkpoint written to the job row is the loop's running counters (all zero before the first batch) |
| CsvProcessor.StepSound | app/services/csv_processor.py:58-61 | one batch keeps the table valid and grows it by exactly the created count |
| CsvProcessor.CommitSound | app/services/csv_processor.py:57-70 | a run of batches keeps the table valid, grows it by the created count, and on success processes every record once |
| CsvProcessor.ImportTotals | app/services/csv_processor.py:31-73 | a whole import keeps the table valid and grows it by the created count; when it ends normally processed = created + updated = the number of kept rows |
| CsvProcessor.RepeatedSkuFailsImport | app/services/csv_processor.py:98-107 | with no in-batch de-duplication, a repeated sku in a file of at most one batch fails the statement, and nothing is written, checkpointed or published |
| CsvProcessor.UpsertBatch | app/services/csv_processor.py:76-112 | the method's result and new table are those of the upsert specification, and the table stays valid |
| CsvProcessor.UpsertOutcomeCounts | app/services/csv_processor.py:88-112 | a failed statement changes nothing; otherwise created and updated are non-negative, sum to the batch size, and the table grows by created |
| CsvProcessor.UpdateProgress | app/services/csv_processor.py:115-133 | the job's three counters are set and nothing else changes; an unknown job is left alone |
| CsvProcessor.PublishProgress | app/services/csv_processor.py:136-163 | exactly one snapshot with the given values is appended to the channel |
| CsvProcessor.CommitStep | app/services/csv_processor.py:58-60 | the batch upsert is one step of the replay; a failure changes nothing |
| CsvProcessor.Checkpoint | app/services/csv_processor.py:57-63 | upsert, counter update and (for a full batch) snapshot leave the store reflecting the replay one batch longer |
| CsvProcessor.WriteCheckpoint | app/services/csv_processor.py:61-62 | the job row takes the new counters; a snapshot is published only after a full batch |
| CsvProcessor.AddRecord | app/services/csv_processor.py:54-63 | appending a record keeps the loop state; when it fills the batch, a database error leaves the store at the replay that stopped there |
| CsvProcessor.FlushBatch | app/services/csv_processor.py:57-63 | the record that fills a batch commits it and empties the buffer, or stops at the database error |
| CsvProcessor.ReadRow | app/services/csv_processor.py:41-63 | one row is skipped, raises, or is added, and the loop invariant holds for one more row |
| CsvProcessor.Finish | app/services/csv_processor.py:65-73 | the leftover batch is upserted only when non-empty, then the `completed` snapshot is published with processed = total |
| CsvProcessor.ProcessCsvContent | app/services/csv_processor.py:20-73 | an unknown job raises before any change; otherwise the table, job row and channel are those of the whole-file replay |
| ImportTasks.MarkFailed | app/tasks/import_tasks.py:136-140 | an existing job gets status failed and the error text, every other job is unchanged, and a missing job is not created |
| ImportTasks.TaskEndsTerminal | app/tasks/import_tasks.py:38-164 | with the failure handler as corrected (rollback first, error parameter on `publish_progress`), for a job that exists the import task leaves it completed (when it returns) or failed with the error's text (when it raises) |
| ImportTasks.EarlyFailureWritesNoProducts | app/tasks/import_tasks.py:41-77 | an unknown job, a missing file or an unreadable file fails the import task without touching the products table |
| ImportTasks.CompletedImportAccounts | app/tasks/import_tasks.py:84-129 | a completed run reports total = counted rows and created + updated = kept rows, both non-negative, and the table grew by created |
| ImportTasks.StartJob | app/tasks/import_tasks.py:41-63 | an existing job is set to processing whatever its previous status, then `import.started` is dispatched; an unknown job changes nothing |
| ImportTasks.SetTotalRows | app/tasks/import_tasks.py:84-86 | the counted total is stored on the job before any batch |
| ImportTasks.MarkCompleted | app/tasks/import_tasks.py:96-98 | the job becomes completed with its counters intact |
| ImportTasks.TryBlock | app/tasks/import_tasks.py:38-129 | the `try` body's effect and result are those of the specification `TryImport` |
| ImportTasks.TryImport | app/tasks/import_tasks.py:38-129 | specification: the effect and result of the `try` body, step by step |
| ImportTasks.FailureHandlerAsWritten | app/tasks/import_tasks.py:131-146 | as written, after a database error the session's transaction is still aborted, so the handler's first query raises "current transaction is aborted…" and the job row is untouched; after any other error it marks the job failed, then the call with seven arguments raises a TypeError; either way nothing is published and no `import.failed` is sent |
| ImportTasks.FailureHandler | app/tasks/import_tasks.py:131-160 | as intended the handler rolls the aborted transaction back (earlier batches stay committed), marks the job failed, publishes the failure snapshot with the error's text, and dispatches `import.failed` |
| ImportTasks.MarkJobFailed | app/tasks/import_tasks.py:136-140 | the job row is marked failed with the message |
| ImportTasks.Cleanup | app/tasks/import_tasks.py:166-179 | the staged file is gone afterwards whether or not it existed, unless removing it fails, in which case it stays; nothing raises either way |
| ImportTasks.ProcessCsvImport | app/tasks/import_tasks.py:19-179 | with the handler as corrected, the whole task equals the specification `Task` (try body, then the handler on error), and the staged file is removed unless its removal fails |
| ImportTasks.ProcessCsvImportAsWritten | app/tasks/import_tasks.py:19-179 | the import task as written equals the specification `TaskAsWritten` (try body, then the as-written handler on error), and the staged file is removed unless its removal fails |
| ImportTasks.Task | app/tasks/import_tasks.py:19-164 | specification: the import task with the corrected failure handler |
| ImportTasks.TaskAsWritten | app/tasks/import_tasks.py:19-164 | specification: the import task with the failure handler as written |
| ImportTasks.AsWrittenAgreesOnSuccess | app/tasks/import_tasks.py:38-129 | the as-written task returns exactly when the corrected one completes, with the same state and summary |
| ImportTasks.AsWrittenFailureIsNeverReported | app/tasks/import_tasks.py:131-164 | whenever the as-written task raises, the channel, outbox and table are those the `try` body left: no failure snapshot and no `import.failed`; a database error leaves the job row untouched and raises the aborted-session error, any other error marks the job failed and raises the TypeError |
| ImportTasks.RepeatedSkuStallsJobAsWritten | app/tasks/import_tasks.py:131-140 | a file of one batch that repeats a sku leaves the job `processing` for ever as written, with nothing published; the corrected task marks it failed and publishes the failure snapshot |
| ImportTasks.BindPublishProgress | app/services/csv_processor.py:136-138 | `publish_progress` binds only six positional arguments |
| ImportTasks.BindPublishProgressWithError | app/services/csv_processor.py:136-138 | a version with an error parameter binds six arguments exactly as before |
| ImportTasks.HandlerCallDoesNotBind | app/tasks/import_tasks.py:146 | the handler's seven-argument call does not bind, and Python's message names 6 versus 7 |
| ImportTasks.HandlerCallBindsWithError | app/tasks/import_tasks.py:146 | with an error parameter the same call yields the failed snapshot carrying the error text |
| Upload.CsvCheckIgnoresCase | app/api/upload.py:127 | the extension check gives the same answer for a name and its lower-cased form |
| Upload.TempPath | app/api/upload.py:160 | the staged path is the upload directory, `/`, the job id, `.csv`, with the id recoverable from it |
| Upload.TempPathInjective | app/api/upload.py:160 | distinct jobs stage to distinct paths |
| Upload.MeasureUpload | app/api/upload.py:135-142 | reading 1 KiB chunks reports "too large" iff the size exceeds 100·1024·1024; otherwise the size is exact |
| Upload.SaveFile | app/api/upload.py:163-170 | writing 8 KiB chunks stores the whole content when it fits; on a full disk only the whole chunks that fitted are on disk |
| Upload.TryStage | app/api/upload.py:158-190 | without a fault the job is uploaded, the file staged and exactly one task enqueued; with one, nothing is enqueued and only this job and file may differ |
| Upload.UploadCsv | app/api/upload.py:104-206 | the endpoint's reply and new state are those of the specification `Intake` |
| Upload.Intake | app/api/upload.py:104-206 | specification: the endpoint's reply and new state, check by check |
| Upload.RefusedUploadLeavesNoJob | app/api/upload.py:192-206 | a refused or failed upload leaves the jobs and the queue as they were, and at most removes its own staged file |
| Upload.AcceptedUploadIsQueued | app/api/upload.py:153-190 | accepted iff a `.csv` name, at most 100 MiB, a new job id, a filename that fits and no fault; then the job is uploaded, the file staged and exactly (id, path) enqueued |
| Upload.SizeLimitIsInclusive | app/api/upload.py:139 | exactly 100 MiB is accepted; one byte more gets 413 |
| Upload.ReplyAndRowStatusesDiffer | app/api/upload.py:175-190 | the reply says "processing" while the job row says "uploaded" |
| Upload.GetUploadStatus | app/api/upload.py:34-46 | 500 iff the id does not cast to `uuid`; 404 "Job not found" iff it casts to an unknown id; otherwise the stored record under the standard form of the id, unchanged |
| Upload.AcceptedUploadIsVisible | app/api/upload.py:150-177 | right after an accepted upload, the status read of its `uuid4` id returns the new uploaded job with zero counters |
| Upload.OtherSpellingsFindTheJob | app/api/upload.py:42-46 | a stored job is found under any spelling of its id: upper case, without hyphens, in braces |
| Upload.MalformedJobIdIsServerError | app/api/upload.py:42 | a job id that is not a `uuid` gets 500, not 404 |
| Upload.OtherSpellingStreamsAnotherChannel | app/api/upload.py:59-67 | the stream subscribes under the id as spelled in the path, which differs from the channel progress is published on whenever the spelling is not the standard form |
| Upload.BrokenPollAbortsAsWritten | app/api/upload.py:85-88 | as written a failing poll raises a NameError in the handler and no error event is sent; as intended the stream ends with the error event |
| Upload.RelayAsWrittenAgreesUnbroken | app/api/upload.py:69-88 | when no poll fails, the as-written and intended relays agree |
| Upload.Relay | app/api/upload.py:63-92 | specification: the events and ending of the stream over a sequence of polls, as intended |
| Upload.RelayAsWritten | app/api/upload.py:63-92 | specification: the same, with a failing poll aborting on the NameError |
| Upload.Messages | app/api/upload.py:74 | at most one snapshot per poll: only items of type `message` are considered |
| Upload.AsEvents | app/api/upload.py:76 | each forwarded message becomes one `data:` event, in order |
| Upload.RelayForwardsThroughTerminal | app/api/upload.py:70-80 | the relay forwards the messages in arrival order up to and including the first completed or failed one; it closes iff such a message came, else it is still waiting |
| Upload.ClosedStreamIgnoresLaterPolls | app/api/upload.py:79-80 | once closed, later polls change nothing |
| Upload.OnlyTheLastEventEnds | app/api/upload.py:74-80 | every event but the last is a non-terminal snapshot, and the stream is closed iff its last event is terminal or the error event |
| Upload.LateSubscriberWaits | app/api/upload.py:70-83 | a stream that only times out sends nothing and keeps waiting |
| Upload.EventGenerator | app/api/upload.py:63-92 | the poll loop produces exactly the relay's events and ending |
| Upload.StreamProgress | app/api/upload.py:49-101 | the same 500 and 404 as the status read before subscribing, otherwise the relay |
| Products.KeyOf | app/api/products.py:132 | the lookup by id finds a row iff the id is stored, and the row found has that id |
| Products.ProductRow | app/api/products.py:132 | the row with a stored id has that id and is stored under its sku |
| Products.SkuInUseIsKey | app/api/products.py:88-92 | the case-insensitive sku query finds a row iff the lower-case sku is a key |
| Products.MatchIds | app/api/products.py:46-59 | the filters select only stored ids |
| Products.Reversed | app/api/products.py:66 | the selected rows are listed in reverse id order |
| Products.ListingSound | app/api/products.py:43-66 | every listed product is stored and passes all given filters, and the list is strictly newest first |
| Products.ListingComplete | app/api/products.py:43-66 | every stored product that passes the filters is listed |
| Products.NoFiltersListEverything | app/api/products.py:46-59 | absent or empty filters select every product |
| Products.PageCountIsCeiling | app/api/products.py:69 | pages is at least 1 and, for a non-empty result, the least page count that holds every result |
| Products.Window | app/api/products.py:65-66 | offset/limit return the at most page-size results starting at the offset |
| Products.ListProducts | app/api/products.py:22-77 | 422 iff page < 1 or page size outside 1..100; otherwise the page echoes its parameters and holds at most page-size items |
| Products.ListProductsQuery | app/api/products.py:22-25 | omitted `page` and `page_size` take the defaults 1 and 50, which are always accepted |
| Products.DefaultQueryListsNewestFifty | app/api/products.py:22-25 | a query without paging parameters returns the newest 50 filtered products (all of them when fewer) and the full total |
| Products.ListPageIsWindow | app/api/products.py:62-66 | `total` counts the whole filtered listing, and the items are the listing from offset (page-1)·page_size |
| Products.PageOfIndex | app/api/products.py:65-69 | result n sits at position n mod page_size of page n div page_size + 1, which exists |
| Products.EveryResultIsOnItsPage | app/api/products.py:62-69 | every result of the listing is returned on its page, whatever the page size |
| Products.GetProduct | app/api/products.py:129-136 | 404 "Product not found" iff the id is unknown; otherwise the stored row with that id |
| Products.CreateOutcomeSpec | app/api/products.py:88-105 | 400 exactly when a stored sku equals the new normalised sku ignoring case; otherwise one new row with a fresh id, sku lower(strip(sku)) and the body's other fields, and no other row changes |
| Products.CreateOutcome | app/api/products.py:80-126 | specification: the create endpoint's reply and table, with the duplicate check on the stored form of the sku |
| Products.CreateOutcomeAsWritten | app/api/products.py:80-126 | specification: the same, with the duplicate check on the unstripped sku |
| Products.CreateThenGet | app/api/products.py:106-126 | a created product can be read back by its id |
| Products.CreateAsWrittenAgreesOnTrimmedSku | app/api/products.py:88-105 | for a sku without surrounding white space, the as-written and corrected creates agree |
| Products.PaddedDuplicateSkuAsWritten | app/api/products.py:88-107 | a padded sku whose stripped form is taken passes the as-written check and the insert fails with 500, spending one serial value, where the corrected check answers 400 and changes nothing |
| Products.PaddedDuplicateSkuExample | app/api/products.py:88-107 | such a case exists: product "a" stored, body sku " a" |
| Products.CreateProduct | app/api/products.py:80-126 | the endpoint's reply and table are those of `CreateOutcome`, and `product.created` with the new row is dispatched only on success |
| Products.UpdateOutcomeSpec | app/api/products.py:139-177 | 404 iff the id is unknown; 400 iff another product's sku equals the new one ignoring case; otherwise only supplied fields change (sku lower-cased, not stripped), ids are kept and no other row changes |
| Products.UpdateOutcome | app/api/products.py:139-177 | specification: the update endpoint's reply and table |
| Products.UpdateKeepsValid | app/api/products.py:167-177 | re-keying the updated row keeps the table valid, the id set equal, and every other row unchanged |
| Products.EmptyUpdateChangesNothing | app/api/products.py:169-177 | a body with no fields returns the product and leaves the table as it was |
| Products.UpdateIsIdempotent | app/api/products.py:149-177 | sending the same accepted update twice has the effect of sending it once |
| Products.UpdateProduct | app/api/products.py:139-196 | the field-by-field update equals `UpdateOutcome`, and `product.updated` with the new row is dispatched only on success |
| Products.DeletedPayload | app/api/products.py:207-211 | the delete payload is a `product.deleted` event |
| Products.DeleteRemovesExactlyThatProduct | app/api/products.py:199-214 | 404 iff the id is unknown, with nothing changed; otherwise exactly that product is removed, the table stays valid, and every other row is kept |
| Products.DeleteOutcome | app/api/products.py:199-214 | specification: the delete endpoint's reply and table |
| Products.DeleteThenGet | app/api/products.py:199-214 | after a delete, reading that id answers 404 |
| Products.DeleteProduct | app/api/products.py:199-223 | the endpoint's reply and table are those of `DeleteOutcome`, and the payload carries the pre-deletion id, sku and name |
| Products.BulkDeleteProducts | app/api/products.py:226-236 | the table is emptied and the count of rows it held is returned; no webhook is sent |
| Products.BulkDeleteEmptiesListing | app/api/products.py:233-236 | after a bulk delete every listing is empty with total 0 on one page |
| WebhooksApi.Reversed | app/api/webhooks.py:27 | the listed webhooks are in reverse id order |
| WebhooksApi.ListWebhooksSpec | app/api/webhooks.py:20-28 | the list holds every stored webhook exactly once, strictly newest first |
| WebhooksApi.GetWebhook | app/api/webhooks.py:48-60 | 404 "Webhook not found" iff the id is unknown, otherwise the stored webhook |
| WebhooksApi.CreateOutcomeSpec | app/api/webhooks.py:31-45 | an invalid body is refused with nothing changed; a valid one is stored as given under a fresh id, and no other webhook changes |
| WebhooksApi.CreateOutcome | app/api/webhooks.py:31-45 | specification: the create endpoint's reply and table |
| WebhooksApi.CreatedWebhookIsATarget | app/api/webhooks.py:38-45 | an enabled webhook is a target of its event as soon as it is created |
| WebhooksApi.CreateWebhook | app/api/webhooks.py:31-45 | the endpoint's reply and table are those of `CreateOutcome` |
| WebhooksApi.UpdateOutcomeSpec | app/api/webhooks.py:63-91 | 404 iff the id is unknown, with nothing changed; otherwise only supplied fields change and no other webhook changes |
| WebhooksApi.UpdateOutcome | app/api/webhooks.py:63-91 | specification: the update endpoint's reply and table |
| WebhooksApi.EmptyUpdateChangesNothing | app/api/webhooks.py:80-88 | a body with no fields returns the webhook and changes nothing |
| WebhooksApi.UpdateWebhook | app/api/webhooks.py:63-91 | the field-by-field update equals `UpdateOutcome` |
| WebhooksApi.DeleteOutcomeSpec | app/api/webhooks.py:94-109 | 404 iff the id is unknown; afterwards the id is gone, no event targets it, and every other webhook is kept |
| WebhooksApi.DeleteOutcome | app/api/webhooks.py:94-109 | specification: the delete endpoint's reply and table |
| WebhooksApi.DeleteWebhook | app/api/webhooks.py:94-109 | the endpoint's reply and table are those of `DeleteOutcome` |
| WebhooksApi.TestPayload | app/api/webhooks.py:126-137 | the test payload names the webhook's own event type and has `test` set |
| WebhooksApi.TestWebhookEndpoint | app/api/webhooks.py:112-142 | 404 iff the id is unknown, with nothing sent; otherwise exactly one POST of the test payload to the webhook's url, answered with what the POST observed |
| WebhooksApi.TestIgnoresEnabledAndEventList | app/api/webhooks.py:122-140 | a disabled webhook for an unlisted event can still be sent a test request, though no dispatch would reach it |

## Left out

- Redis, the SSE transport, Celery and HTTP are not modelled. Publishing is an append to the progress channel that never fails. Enqueuing is an append to the queue. A webhook POST is a delivery record whose success is the `reachable` parameter.
- The relay's subscribe and unsubscribe are not modelled. An ending of `Closed` or `Aborted` means the `finally` block ran; `Waiting` means the finite poll sequence ran out while the stream is still open.
- Timing, the one-second poll timeout and the 0.1 s sleep are not modelled. `test_webhook`'s measured response time is part of the POST outcome, taken as already rounded to milliseconds; the clock is not modelled.
- CSV tokenisation and UTF-8 decoding are not modelled. The file's rows come from a `Parser` parameter, and a file that does not decode is the parser's error, whose text (the decoding exception's) becomes the job's error message.
- `RawRow` maps a column to `None` when a row stops short of that column, as `csv.DictReader` does. Only the description column's `None` is followed to its `AttributeError`.
- Lower-casing covers ASCII letters only; stripping uses Python's full white-space set. ILIKE wildcards (`%` and `_` inside a filter) are treated as plain characters.
- `created_at` ordering is modelled by the serial id, which grows with every insert, so ties are not modelled.
- Transactions are modelled only at the failure handler: after a database error the as-written handler meets the aborted session, and the corrected one rolls it back. Commit failures of individual status writes are not modelled. Nor is the race between counting existing skus and upserting.
- ImportTasks.FailureHandler: for a database error the job's error message and the failure snapshot carry only PostgreSQL's own message; the text of SQLAlchemy's wrapping exception (the driver's exception class, the SQL statement and its parameters) is not modelled, because it depends on the statement's rendering.
- ImportTasks.FailureHandlerAsWritten: only PostgreSQL's own message for the aborted session is kept; the wording of the driver's wrapping exception is not modelled.
- CsvProcessor.UpsertBatch: a statement that fails leaves the serial where it was; PostgreSQL may already have consumed serial values for the rows it evaluated before failing. Only the gaps of successful statements are modelled.
- Of the database errors, only rejections by the upsert statement are modelled: a value too long, or a sku affected twice. Which error PostgreSQL reports first is approximated by the first offending row.
- A 422 reply keeps only its status; FastAPI's detail body is not modelled.
- Integer column widths are not modelled: ids and counters are unbounded.
- Logging is left out. The uuid source is a `jobId` parameter.
- The following files are not part of this model:
  - `app/config.py`, `app/database.py`, `app/main.py` and `app/tasks/celery_app.py`;
  - `app/schemas/upload.py`: `UploadResponse` is defined where it is used;
  - `app/models/webhook.py`: folded into `Models.Webhook`;
  - `scripts/generate_csv.py` and the tests.
- WebhookService.TriggerWebhooks: the sends happen concurrently and in no guaranteed order. The model records them in ascending webhook id order.
- WebhooksApi.TestWebhookEndpoint: the test POST is recorded in the outbox like a dispatch, with `delivered` equal to whether it was answered.
- CsvProcessor.Ingest: its own contract only bounds the number of kept rows. Their content is stated by `IngestIsFilter` and `NormalisedShape`.

## Findings

| source | as written | input that shows it | evidently intended | confidence | as-written member | corrected member |
|---|---|---|---|---|---|---|
| app/tasks/import_tasks.py:146 | the failure handler calls `publish_progress` with seven positional arguments, but it takes six (app/services/csv_processor.py:136-137), so the call raises a TypeError: no failure snapshot is published, `import.failed` is never sent, and the TypeError replaces the original error | any failing import, e.g. a job whose staged file is missing | the failure snapshot carries the error text, and the handler goes on to dispatch `import.failed` and re-raise the original error | not executed | ImportTasks.FailureHandlerAsWritten, ImportTasks.HandlerCallDoesNotBind, ImportTasks.ProcessCsvImportAsWritten, ImportTasks.AsWrittenFailureIsNeverReported | ImportTasks.FailureHandler, ImportTasks.HandlerCallBindsWithError, ImportTasks.ProcessCsvImport, ImportTasks.TaskEndsTerminal |
| app/tasks/import_tasks.py:131-140 | the session runs without autocommit and the handler never rolls back, so after a database error in the `try` body the handler's first query raises "current transaction is aborted": the job stays `processing` at its last checkpoint, nothing is published and no `import.failed` is sent | a CSV whose only batch repeats the sku `a` | roll the transaction back, then mark the job failed and report the failure | not executed | ImportTasks.FailureHandlerAsWritten, ImportTasks.RepeatedSkuStallsJobAsWritten | ImportTasks.FailureHandler, ImportTasks.TaskEndsTerminal |
| app/api/products.py:88-101 | the duplicate check compares stored skus with `lower(sku)`, but the row is inserted with `lower(strip(sku))`, so a padded sku whose stripped form is taken passes the check and the insert breaks the unique index (500) | product `a` stored, create body with sku `" a"` | 400 "already exists" whenever the sku that would be stored is taken | not executed | Products.CreateOutcomeAsWritten, Products.PaddedDuplicateSkuExample | Products.CreateOutcome, Products.CreateProduct |
| app/api/upload.py:85-88 | the stream's `except` block logs through `logger`, which is defined only inside `upload_csv`, so it raises a NameError instead of sending the error event | a Redis read that raises while a client is streaming | the stream ends with the `Stream error` event | not executed | Upload.RelayAsWritten, Upload.BrokenPollAbortsAsWritten | Upload.Relay, Upload.EventGenerator |
