# new-batch-job: a Dafny model of the batch engine core

This project models the core of a Spring Batch work-processing engine written in Java. It covers:

- **The transaction table as a work-claim store.** A claim takes the oldest unclaimed rows, ordered by `(create_date, id)` with NULLs last, marks them, and reads them back. Point and bulk writes set the status column.
- **The status codec.**
- **The paging reader.** It serves transactions one by one from pages that an Oracle package hands out.
- **The projection/DTO mapper.**
- **The step accounting.** These are the chunk, skip and step listeners that keep the counters, append job-log rows and write one result row.
- **The two concrete steps:**
  - the transaction step, whose processor and writer drive the status column;
  - the sample step, which doubles 1..10.
- **The job run gate.** It overlays the persisted parameters with the caller's, launches only when the setting's status is 1, and keeps a correlation id while running.
- **The job-setting upsert service.**
- **The page-size endpoints' validation.**
- **The seed-data initializer.**

Each part keeps the source's form:

- Objects whose fields the code updates are classes with `modifies` clauses: the store, the reader, the step builder, the job and the setting service.
- Loops stay loops with invariants: the id collection, the merge of caller parameters, the sample reader and the seed list.
- Field copying and validation are functions.
- Java `null` is `Option`, a thrown exception is `Result` (or an `Option<Throwable>` outcome), and Java's 32-bit `int` arithmetic is written out as `Wrap32`.

Collaborators outside the code become parameters:

- the Oracle package's page and count;
- the external API's boolean answer;
- the failure, if any, of each store write;
- the JSON parser's result;
- the UUID text;
- the job launcher's outcome;
- the clock.

Three choices follow from what the code does:

- **The claim mark.** The claim writes `TransactionStatus.PENDING.getValue()` (TransactionRepositoryImpl.java:61), but the enum declares only `NULL`, `JOB_PROCESSING`, `COMPLETED` and `ERROR`. The model uses the status text `"PENDING"` as its own claim mark, `TransactionRepository.ClaimMark`. `ClaimMarkDecodesToNull` shows that `fromValue` reads this mark back as `NULL`, the same as an unprocessed row.
- **Write-stage skips.** `onSkipInWrite` decrements `numberOfFailures` (AbstractStepBuilder.java:216), and `OnSkipInWrite` does the same.
- **Transform-stage writes.** `updateTransactionStatus` is plain `@Transactional`, so it joins the chunk's transaction. Commit and rollback are left out (see below): every write that does not fail takes effect at once.

## Model

| member | source | states |
|---|---|---|
| TransactionRepository.TransactionStore.FetchAndMarkTransactions | src/main/java/com/yourcompany/batch/repository/TransactionRepositoryImpl.java:43-80 | A claim with limit L takes `k = min(L, #unset)` rows (0 if L <= 0). They are the first k of the unclaimed queue, ordered by (createDate, id). It marks exactly those rows and leaves every other row unchanged. It returns them in queue order with the mark. The queue afterwards is the old queue without its first k rows. With nothing unclaimed it returns [] and changes nothing. |
| TransactionRepository.TransactionStore.UpdateTransactionStatus | src/main/java/com/yourcompany/batch/repository/TransactionRepositoryImpl.java:84-96 | A null id is a no-op. Otherwise exactly the row with that id gets the status, and every other row is unchanged. |
| TransactionRepository.TransactionStore.UpdateTransactionsStatus | src/main/java/com/yourcompany/batch/repository/TransactionRepositoryImpl.java:100-112 | A null or empty list is a no-op. Otherwise every listed id gets the status (null entries match nothing), and no other row changes. |
| TransactionRepository.TransactionStore.SaveAllNew | src/main/java/com/yourcompany/batch/config/TransactionDataInitializer.java:41 | saveAll of new entities appends them in order with fresh, increasing ids. The table stays well keyed. |
| TransactionRepository.SortedWhereSpec | src/main/java/com/yourcompany/batch/repository/TransactionRepositoryImpl.java:26-36 | A selection is strictly ascending by (createDate, id) with NULLs last. It holds exactly the rows meeting its condition, and its length is the count of such rows. |
| TransactionRepository.SortedUnique | src/main/java/com/yourcompany/batch/repository/TransactionRepositoryImpl.java:71-75 | Two strictly sorted sequences with the same members are equal, so an ORDER BY read determines its result. |
| TransactionRepository.ClaimAdvancesQueue | src/main/java/com/yourcompany/batch/repository/TransactionRepositoryImpl.java:59-63 | After the claim's UPDATE of the first k queue ids, the unclaimed queue is exactly the old queue minus its first k rows. |
| TransactionRepository.ClaimReadBack | src/main/java/com/yourcompany/batch/repository/TransactionRepositoryImpl.java:71-75 | Re-reading the claimed ids in key order gives the first k queue rows, in queue order, each carrying the claim mark. |
| TransactionRepository.ClaimTakesOldest | src/main/java/com/yourcompany/batch/repository/TransactionRepositoryImpl.java:31-34 | Every claimed row comes before every unclaimed row the claim leaves behind. |
| TransactionRepository.ClaimedIdsAreThePrefix | src/main/java/com/yourcompany/batch/repository/TransactionRepositoryImpl.java:55-62 | Within the queue, a row carries one of the selected ids exactly when it is one of the first k. |
| TransactionRepository.WithStatus | src/main/java/com/yourcompany/batch/repository/TransactionRepositoryImpl.java:105-109 | The `WHERE id IN :ids` update changes the status of exactly the rows whose id is listed, keeps the length and changes no other field. |
| TransactionRepository.WithStatusIdempotent | src/main/java/com/yourcompany/batch/repository/TransactionRepositoryImpl.java:100-112 | Repeating a bulk status update with the same arguments changes nothing further. |
| TransactionRepository.WithNoIds | src/main/java/com/yourcompany/batch/repository/TransactionRepositoryImpl.java:101-103 | An update naming no id leaves the table as it was. |
| TransactionRepository.WithStatusKeepsKeys | src/main/java/com/yourcompany/batch/repository/TransactionRepositoryImpl.java:105-109 | Status updates keep the table well keyed: ids present and distinct. |
| TransactionRepository.WrittenRowsLeaveQueue | src/main/java/com/yourcompany/batch/repository/TransactionRepositoryImpl.java:105-109 | After a non-null status write, the claim queue holds exactly the previously queued rows that were not written. |
| TransactionRepository.MarkedSorted | src/main/java/com/yourcompany/batch/repository/TransactionRepositoryImpl.java:71-75 | Marking rows does not disturb their key order. |
| TransactionRepository.BeforeTransitive | src/main/java/com/yourcompany/batch/repository/TransactionRepositoryImpl.java:32 | The claim order is transitive. |
| TransactionRepository.BeforeTotal | src/main/java/com/yourcompany/batch/repository/TransactionRepositoryImpl.java:32 | Rows with distinct ids are always ordered one way or the other. |
| TransactionRepository.ClaimMarkDecodesToNull | src/main/java/com/yourcompany/batch/repository/TransactionRepositoryImpl.java:61 | The claim mark "PENDING" decodes through fromValue to NULL: it matches no declared constant. |
| Enumeration.GetValue | src/main/java/com/yourcompany/batch/domain/enumeration/TransactionStatus.java:10-35 | getValue is null exactly for NULL, and the constant's name for the other three. |
| Enumeration.FindByValue | src/main/java/com/yourcompany/batch/domain/enumeration/TransactionStatus.java:41-46 | A search over the constants returns a constant with that value, or NULL. |
| Enumeration.FromValue | src/main/java/com/yourcompany/batch/domain/enumeration/TransactionStatus.java:37-47 | fromValue(null) is NULL. Any other result has exactly the given value. |
| Enumeration.RoundTrip | src/main/java/com/yourcompany/batch/domain/enumeration/TransactionStatus.java:37-47 | fromValue(getValue(s)) == s for every constant s. |
| Enumeration.UnknownDecodesToNull | src/main/java/com/yourcompany/batch/domain/enumeration/TransactionStatus.java:46 | A string that is no constant's value decodes to NULL. |
| Enumeration.ValuesDistinct | src/main/java/com/yourcompany/batch/domain/enumeration/TransactionStatus.java:15-25 | The non-null values are pairwise distinct. |
| TransactionReader.LoadNextPage | src/main/java/com/yourcompany/batch/batch/reader/TransactionReader.java:84-106 | A source failure becomes the wrapping RuntimeException with the fixed message. A null or empty list gives null. Otherwise each projection is mapped, in order, with the same length. |
| TransactionReader.TransactionReader.Read | src/main/java/com/yourcompany/batch/batch/reader/TransactionReader.java:50-76 | After a read, initialized is true. A page is fetched only when none is held or the index reached its size; the index is then 0. Read returns null exactly when that fresh page is null or empty, and this is not latched. Otherwise it returns page[index] and advances the index by one. A null entry throws. A load failure keeps the state. While a page is held, 0 <= index <= size. |
| TransactionReader.TransactionReader.Reset | src/main/java/com/yourcompany/batch/batch/reader/TransactionReader.java:111-116 | Index 0, no page, not initialized. |
| TransactionReader.TransactionReader.Initialize | src/main/java/com/yourcompany/batch/batch/reader/TransactionReader.java:44-47 | The same state as reset. |
| TransactionReader.Handed | src/main/java/com/yourcompany/batch/batch/reader/TransactionReader.java:69-75 | An entry handed out is never null. A null entry is a failure. |
| TransactionMapper.ProjectionToEntity | src/main/java/com/yourcompany/batch/repository/mapper/TransactionMapper.java:17-30 | null maps to null. A projection maps to an entity. |
| TransactionMapper.ProjectionCopiesAllFields | src/main/java/com/yourcompany/batch/repository/mapper/TransactionMapper.java:22-29 | All six fields are copied, status included. |
| TransactionMapper.DtoToEntity | src/main/java/com/yourcompany/batch/repository/mapper/TransactionMapper.java:35-47 | null maps to null, and a DTO maps to an entity. |
| TransactionMapper.DtoCopiesAllFields | src/main/java/com/yourcompany/batch/repository/mapper/TransactionMapper.java:41-45 | The entity has the DTO's id, branch, name, amount and createDate, each in its own field, and no status. |
| TransactionMapper.EntityToDto | src/main/java/com/yourcompany/batch/repository/mapper/TransactionMapper.java:52-64 | null maps to null, and an entity maps to a DTO. |
| TransactionMapper.EntityCopiesAllFields | src/main/java/com/yourcompany/batch/repository/mapper/TransactionMapper.java:58-62 | The DTO has the entity's id, branch, name, amount and createDate, each in its own field. |
| TransactionMapper.DtoRoundTrip | src/main/java/com/yourcompany/batch/repository/mapper/TransactionMapper.java:35-64 | toDTO(toEntity(dto)) == dto. |
| TransactionMapper.EntityRoundTrip | src/main/java/com/yourcompany/batch/repository/mapper/TransactionMapper.java:35-64 | toEntity(toDTO(e)) is e with its status cleared. |
| AbstractStepBuilder.Truncate | src/main/java/com/yourcompany/batch/batch/step/AbstractStepBuilder.java:189-192 | null stays null. A message of at most 4000 characters is returned unchanged; a longer one becomes its first 4000 characters. |
| AbstractStepBuilder.StepBuilder.constructor | src/main/java/com/yourcompany/batch/batch/step/AbstractStepBuilder.java:35-37 | Before any step, the processed, failure and total counters are -1 and nothing is logged. |
| AbstractStepBuilder.StepBuilder.AddJobLog | src/main/java/com/yourcompany/batch/batch/step/AbstractStepBuilder.java:139-150 | Exactly one row is appended. It carries the step name, the type, the message and the note, and is stamped with the current step and job execution ids and the job name. Nothing else changes. |
| AbstractStepBuilder.StepBuilder.BeforeStep | src/main/java/com/yourcompany/batch/batch/step/AbstractStepBuilder.java:237-258 | Both counters restart at 0 and the ids come from the execution. On a terminate-only step the total is not counted and keeps its old value. The note is set ("Total: n" or "Terminate Step") only while null. The hook's INFO row comes before the START row, whose note is "Total: n, {params}". |
| AbstractStepBuilder.StepBuilder.AfterChunk | src/main/java/com/yourcompany/batch/batch/step/AbstractStepBuilder.java:167-179 | The write count (cast to int) is added to processed and to the tally since the last log. Exactly when the tally reaches 1000, or the write count is below 1000, one COUNT row "Count: p/total" is written and the tally restarts. |
| AbstractStepBuilder.StepBuilder.AfterChunkError | src/main/java/com/yourcompany/batch/batch/step/AbstractStepBuilder.java:182-195 | Only when a failure exception exists: failures go up by exactly 1 and one ERROR row holds the truncated message and the stack trace. |
| AbstractStepBuilder.StepBuilder.OnSkipInRead | src/main/java/com/yourcompany/batch/batch/step/AbstractStepBuilder.java:203-210 | One ERROR row. Nothing else changes. |
| AbstractStepBuilder.StepBuilder.OnSkipInProcess | src/main/java/com/yourcompany/batch/batch/step/AbstractStepBuilder.java:225-232 | One ERROR row. Nothing else changes. |
| AbstractStepBuilder.StepBuilder.OnSkipInWrite | src/main/java/com/yourcompany/batch/batch/step/AbstractStepBuilder.java:214-222 | Failures go down by 1, and one ERROR row is written. |
| AbstractStepBuilder.StepBuilder.AfterStep | src/main/java/com/yourcompany/batch/batch/step/AbstractStepBuilder.java:262-309 | First the END row, then the hook's row, then exactly one result row. That row has rowRun = processed, rowError = failures, skip counts cast to int, and skipLimit = 99. The exit status is COMPLETED. |
| AbstractStepBuilder.StepBuilder.SetParameters | src/main/java/com/yourcompany/batch/batch/step/AbstractStepBuilder.java:73-75 | Only the parameters change. |
| AbstractStepBuilder.StepBuilder.SetNoteResult | src/main/java/com/yourcompany/batch/batch/step/AbstractStepBuilder.java:115-117 | Only the note changes. |
| TransactionStepBuilder.Process | src/main/java/com/yourcompany/batch/sample/TransactionStepBuilder.java:68-122 | On API success the item comes back unchanged and the table is untouched. On failure the item is marked ERROR (unless both writes fail) and an exception is thrown. The exception is the first write's failure, or the API failure; a failure of the catch block's write is swallowed. |
| TransactionStepBuilder.Write | src/main/java/com/yourcompany/batch/sample/TransactionStepBuilder.java:125-166 | An empty chunk writes nothing. Otherwise every id of the chunk is set COMPLETED in one bulk write, and no other row is touched. If that write throws, the chunk's ids are set ERROR (that write's own failure swallowed) and the exception is rethrown. |
| TransactionStepBuilder.CollectIds | src/main/java/com/yourcompany/batch/sample/TransactionStepBuilder.java:129-136 | The loop collects the chunk's ids in chunk order. |
| TransactionStepBuilder.ChunkIds | src/main/java/com/yourcompany/batch/sample/TransactionStepBuilder.java:129-136 | One id per item, in chunk order. |
| TransactionStepBuilder.ApiFailure | src/main/java/com/yourcompany/batch/sample/TransactionStepBuilder.java:95 | The API-failure RuntimeException is one the step skips, and its message starts with the fixed text. |
| SampleStepBuilder.Reader | src/main/java/com/yourcompany/batch/sample/SampleStepBuilder.java:41-48 | The reader's list is exactly 1..10 in order, as long as countTotalItems (10). |
| SampleStepBuilder.Process | src/main/java/com/yourcompany/batch/sample/SampleStepBuilder.java:51-58 | The result is 2*x in int arithmetic: equal to 2*x whenever that fits in 32 bits. |
| AbstractJob.EffectiveParams | src/main/java/com/yourcompany/batch/batch/AbstractJob.java:67-91 | Without a setting, with blank params, on a parse IOException, or with an empty parsed map: the caller's params. With a non-empty parsed map and no caller params: the parsed map. |
| AbstractJob.EffectiveParamsMerge | src/main/java/com/yourcompany/batch/batch/AbstractJob.java:80-82 | With both maps non-empty, the caller wins on its keys and the other keys keep their persisted values. The persisted keys keep their order, and new caller keys follow in caller order. |
| AbstractJob.OverlayLookup | src/main/java/com/yourcompany/batch/batch/AbstractJob.java:81-82 | Lookup after the overlay is the caller's value for caller keys and the persisted value otherwise. |
| AbstractJob.OverlayKeys | src/main/java/com/yourcompany/batch/batch/AbstractJob.java:81-82 | Key order after the overlay is the persisted keys followed by the caller's new keys. |
| AbstractJob.OverlaySnoc | src/main/java/com/yourcompany/batch/batch/AbstractJob.java:82 | Merging one more caller entry is one more merge on the overlay so far. |
| AbstractJob.MergeInto | src/main/java/com/yourcompany/batch/batch/AbstractJob.java:81-82 | The in-place merge loop computes the overlay. |
| AbstractJob.CorrelationId | src/main/java/com/yourcompany/batch/batch/AbstractJob.java:66 | The correlation id holds no hyphen and no lower-case letter, and is no longer than the UUID text. |
| AbstractJob.UpperAsciiSpec | src/main/java/com/yourcompany/batch/batch/AbstractJob.java:66 | toUpperCase maps a to z onto A to Z and leaves every other character alone. |
| AbstractJob.CorrelationIdOfChar | src/main/java/com/yourcompany/batch/batch/AbstractJob.java:66 | A hyphen is removed; any other character becomes its upper-case form. |
| AbstractJob.CorrelationIdAppend | src/main/java/com/yourcompany/batch/batch/AbstractJob.java:66 | Removing hyphens and upper-casing work character by character: the id of a concatenation is the concatenation of the ids. |
| AbstractJob.CorrelationIdLength | src/main/java/com/yourcompany/batch/batch/AbstractJob.java:66 | The id is exactly as long as the UUID text less its hyphens. |
| AbstractJob.Job.constructor | src/main/java/com/yourcompany/batch/batch/AbstractJob.java:32-35 | No params, no correlation id, no launches, and the schedule switch on. |
| AbstractJob.Job.Run | src/main/java/com/yourcompany/batch/batch/AbstractJob.java:64-108 | The params become the effective params. The job launches exactly when there is no setting or its status is 1. The four launcher exceptions are swallowed. An unexpected failure propagates and leaves the correlation id set; a normal return removes it. |
| AbstractJob.Job.RunDefault | src/main/java/com/yourcompany/batch/batch/AbstractJob.java:110-112 | run() is run(null): the effective params and the launch decision of run with no caller map, the schedule switch unchanged, and the launcher's own unexpected exception re-thrown with the correlation id left in place; a normal return clears the id. |
| AbstractJob.Job.RunBySchedule | src/main/java/com/yourcompany/batch/batch/AbstractJob.java:119-125 | With the schedule switch off nothing changes and nothing is thrown. With it on, it is run(params): the same params, launch, switch, re-thrown exception and correlation id. |
| JobSettingService.JobSettingService.FindByJobName | src/main/java/com/yourcompany/batch/service/JobSettingService.java:21-25 | The stored setting under that name, or empty. |
| JobSettingService.JobSettingService.SaveOrUpdate | src/main/java/com/yourcompany/batch/service/JobSettingService.java:27-46 | The dto's description, status and params are stored under its job name, so a later find returns them. updatedBy defaults to SYSTEM. The creation stamp is kept when present and set otherwise. No other row changes, and rows stay keyed by name. |
| JobSettingService.JobSettingService.UpdateParams | src/main/java/com/yourcompany/batch/service/JobSettingService.java:48-65 | Only params and the update stamp change on an existing row. A created row has a null status and a null description. Creation stamps are as in saveOrUpdate. |
| TransactionJobController.CheckPageSize | src/main/java/com/yourcompany/batch/controller/TransactionJobController.java:58-77 | A missing or null pageSize gives "pageSize is required", and a non-number, non-string gives "pageSize must be a number". A string parseInt rejects is a parse failure with "For input string". Anything accepted is > 0 and comes from intValue or parseInt; every positive number or parsable positive string is accepted. |
| TransactionJobController.ParamsTextCarriesPageSize | src/main/java/com/yourcompany/batch/controller/TransactionJobController.java:80 | The params text is `{"pageSize": ` + the digits + `}`, and the digits parse back to n. |
| TransactionJobController.UpdatePageSize | src/main/java/com/yourcompany/batch/controller/TransactionJobController.java:54-94 | A rejection answers 400 and a parse failure answers 500; neither touches the settings. An accepted n stores params `{"pageSize": n}` for TRANSACTION_PROCESSING_STEP, updated by API at the current time. The row keeps its description and status (both null for a new row) and its creation stamps; a row without a creation date gets the current time and API. No other setting changes. A store failure answers 500. |
| TransactionJobController.CreateOrUpdateConfig | src/main/java/com/yourcompany/batch/controller/TransactionJobController.java:102-157 | The same validation. Then the setting gets the params, the description ("Transaction processing step" by default) and the status (1 unless a number is given), updated by API at the current time. It keeps its creation stamps; a row without a creation date gets the current time and SYSTEM. No other setting changes. |
| JavaText.Wrap32 | src/main/java/com/yourcompany/batch/batch/step/AbstractStepBuilder.java:170-171 | The int cast and int addition: always a 32-bit value, and equal to the input when the input already fits. |
| JavaText.Wrap32Congruent | src/main/java/com/yourcompany/batch/batch/step/AbstractStepBuilder.java:170-171 | A wrapped value differs from the exact one by a multiple of 2^32. |
| JavaText.ParseInt | src/main/java/com/yourcompany/batch/controller/TransactionJobController.java:67-68 | Integer.parseInt: a result is an int, the input is an optional sign then decimal digits, and the value is the digits' value, negated after a minus sign. |
| JavaText.ParseIntAcceptsExactlyNumerals | src/main/java/com/yourcompany/batch/controller/TransactionJobController.java:67-68 | Every numeral whose value fits in an int parses to that value; every other string is a NumberFormatException. |
| JavaText.ParseIntExamples | src/main/java/com/yourcompany/batch/controller/TransactionJobController.java:67-68 | "+5" is 5, "007" is 7 and "-0" is 0; "", "-", "+" and "1a" are rejected. |
| JavaText.ParseIntOfIntToString | src/main/java/com/yourcompany/batch/controller/TransactionJobController.java:80 | Every int printed with %d parses back to itself. |
| Params.Lookup | src/main/java/com/yourcompany/batch/batch/AbstractJob.java:82 | Map.get finds a value exactly for the map's keys. |
| Params.PutLookup | src/main/java/com/yourcompany/batch/batch/AbstractJob.java:82 | merge binds the key to the new value and leaves every other binding alone. |
| Params.PutKeys | src/main/java/com/yourcompany/batch/batch/AbstractJob.java:82 | merge keeps an existing key in place and appends a new key last. |
| Params.PutUnique | src/main/java/com/yourcompany/batch/batch/AbstractJob.java:82 | merge never duplicates a key. |
| TransactionDataInitializer.CreateSampleTransactions | src/main/java/com/yourcompany/batch/config/TransactionDataInitializer.java:45-60 | 25 items. Item i has branch branches[i mod 6], name "Transaction i", amount 1000i + i/2, createDate i-dependent hours before its clock reading, and no id or status. |
| TransactionDataInitializer.Init | src/main/java/com/yourcompany/batch/config/TransactionDataInitializer.java:31-43 | A non-empty table is left alone. An empty one receives exactly the 25 samples. |
| TransactionDataInitializer.SeededRowsSorted | src/main/java/com/yourcompany/batch/config/TransactionDataInitializer.java:55 | Seeded rows are well keyed, unclaimed and strictly increasing in claim order. |
| TransactionDataInitializer.SeededQueueIsInsertionOrder | src/main/java/com/yourcompany/batch/config/TransactionDataInitializer.java:50-57 | In a freshly seeded table the claim queue is the insertion order. |
| TransactionDataInitializer.SeedAndClaim | src/main/java/com/yourcompany/batch/config/TransactionDataInitializer.java:31-43 | Seeding, then claiming 10 at a time, returns 10, 10, 5 and 0 rows, the oldest first. |

## Left out

- Concurrent claims (`FOR UPDATE SKIP LOCKED`), `REQUIRES_NEW`, and all commit and rollback semantics are not modelled. Claims run one at a time, and every store write that does not fail takes effect at once.
- TransactionRepository.TransactionStore.SaveAllNew: id generation by the database sequence is a counter in the model. Transaction.java is not part of this model.
- The Oracle package functions `getTransactions10Projection` and `countTransactionsFromPackage` become parameters:
  - the reader's `PageResponse`;
  - `BeforeStep`'s `packageCount`, which `getTotalCount` returns.
- The external API (`ExternalApiService.processTransaction`) is a boolean parameter, because the service catches its own failures. The HTTP client is not modelled.
- Spring Batch's chunk loop, skip-limit enforcement and step counters are not modelled. The listeners take the events as parameters, and the skip rule is only the `Skippable` predicate over exception kinds.
- `writeCount` is whatever the step execution reports. The model does not decide whether it is per chunk or cumulative.
- Logging to slf4j is left out. So are the created-date stamps that job-log and result rows take from the clock.
- Job-log and result writes never fail in the model. The catch in `afterChunk`, which only guards them, is left out.
- TransactionStepBuilder.ApiFailure: the stack-trace text is only its first line; frames are not modelled.
- SampleStepBuilder's writer only logs and is not modelled. So is SampleJob with its scheduler lock and step wiring.
- `runAsync` (a thread), the `beforeJobRun` hook (empty), and the `JobID` job parameter (the current time) are left out.
- The JSON parser is a `ParseResult` parameter. Caller parameter values are assumed non-null, as `LinkedHashMap.merge` requires.
- JavaText.ParseInt: accepts ASCII digits only, whereas Integer.parseInt also accepts other Unicode decimal digits.
- AbstractJob.CorrelationId: upper-cases ASCII letters only (a UUID's text is ASCII).
- AbstractStepBuilder.Truncate: counts Unicode scalar values, whereas String.length and substring count UTF-16 code units. A message with characters outside the Basic Multilingual Plane is cut at a different place, and Java may split a surrogate pair.
- JobSettingService.JobSettingService.SaveOrUpdate: one clock reading stands for both `Instant.now()` calls, so the created and updated dates of a new row are equal in the model.
- `Number.intValue()` of a JSON number is taken as given: `NumberValue` carries it.
- Store failures in the controller are one parameter, `serviceFault`. A failed store write leaves the settings unchanged.
- The `getConfig` endpoint, a read-only view of the setting, is not modelled.
- The seeding loop reads the clock once per item. The model takes the 25 readings as a parameter, and the ordering lemmas assume they do not decrease.
