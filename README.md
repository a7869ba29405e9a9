# OpenChargeMapImporter import pipeline, modelled in Dafny

This project models the import pipeline of OpenChargeMapImporter, which
copies charging-station records from the Open Charge Map catalog into three
MongoDB collections. It covers six parts:

- **Fetch** (`fetchOpenChargeMapData`). The HTTP client becomes the list of
  outcomes its requests have. The recursive retry is unrolled into a loop
  and proved against a function that follows the recursion as written.
- **Cache-aside** (`getCachedData`). Redis becomes a class holding a
  key-to-value map, the expiry of each key and the page size of every fetch
  made.
- **Normalization** (`importDataToDB`).
  - The catalog records become three flat lists of address, connection and
    station documents.
  - Each document keeps the stored document's internal id (`_id`) or takes a
    fresh one from an injected supply.
  - Each station references its address and its connections by those ids.
  - The three lists are handed to one `bulkUpsert`.
- **Repository** (`checkRecordExists`, `bulkUpsert`, `createBulkOps`).
  - The repository is a class over three maps keyed by external id, plus a
    log of what the driver was asked to do.
  - Each write is an ordered list of "filter by id, `$set` the item, upsert"
    operations.
  - The session is a small state machine.
  - The session is never handed to `bulkWrite`, so the model has no rollback.
- **Workers** (`runWorker`, `importDataConcurrently`).
  - A settle-once promise is driven by a worker's `message`, `error` and
    `exit` events.
  - The coordinator starts `CONCURRENCY` workers and waits for them as
    `Promise.all` does, over one interleaved trace of their events.
- **Values** (`src/utils/error.ts`, `src/utils/response.ts`). These are the
  error classes, the error values the pipeline throws, and the response
  helpers over a structured JSON value.

Several behaviours of the code are worth stating, and the model keeps them
as written:

- A 403 response gives up with an `AuthorizeError` only while `retries > 0`.
  With no retries left, a 403 is reported as an `APIError` like any other
  failure.
- The backoff is `2^(5 - retries)` seconds. The exponent uses the literal 5,
  not the configured retry ceiling.
- A retry calls `fetchOpenChargeMapData(retries - 1)`, so the retry count
  never runs down. This is reported under Findings.
- `bulkUpsert` opens a transaction, but its writes are not part of it. A
  failing stations write leaves the batch's addresses and connections in
  place, and the stations written before the fault stay too.
- The cache key does not depend on the page size.

Files:

| file | module |
|---|---|
| `common.dfy` | `Common`: Option, Result, decimal rendering of integers |
| `records.dfy` | `Records`: the catalog records, the stored documents, `Batch`, `Store` |
| `errors.dfy` | `Errors`: the error classes and the values thrown |
| `bulk_ops.dfy` | `BulkOps`: `createBulkOps` and the upsert semantics of a bulk write |
| `repository.dfy` | `Repository`: `checkRecordExists`, the session, `bulkUpsert` |
| `normalizer.dfy` | `Normalizer`: the three normalization stages |
| `importer.dfy` | `ImportService`: `importDataToDB` end to end, what it stores, re-import |
| `fetcher.dfy` | `Fetcher`: the fetch with retry, as written and as intended |
| `cache.dfy` | `Cache`: `getCachedData` |
| `workers.dfy` | `Workers`: `runWorker` |
| `coordinator.dfy` | `Coordinator`: `importDataConcurrently` |
| `response.dfy` | `Response`: `formatResponse`, `SuccessResponse`, `ErrorResponse` |

## Model

| member | source | states |
|---|---|---|
| Common.IntToString | src/service/ChargingStationService.ts:175 | `${code}` of an integer: a minus sign for negative values, then decimal digits whose value is the magnitude |
| Common.DigitsValueOfNatToString | src/service/ChargingStationService.ts:175 | reading back the decimal digits of a number gives the number |
| Errors.APIError | src/utils/error.ts:21-28 | name 'api internal server error'; the message and status are the arguments given, and default to 'api error' and STATUS_CODES.INTERNAL_SERVER_ERROR = 500 |
| Errors.AuthorizeError | src/utils/error.ts:31-38 | name 'access denied'; the message and status default to 'access denied' and STATUS_CODES.UNAUTHORIZED = 403 |
| Errors.ErrorKindsAreDistinguishable | src/utils/error.ts:8-38 | whatever the arguments, an APIError is recognisable as one and never equals an AuthorizeError |
| Errors.MessageOf | src/service/ChargingStationService.ts:151-153 | `reason.message`: the message of an Error, undefined on a bare string |
| Errors.WrapAsAPIError | src/service/ChargingStationService.ts:151-153 | `new APIError(reason.message)`: status 500 and the reason's message, or the default message when the reason has none |
| BulkOps.CreateBulkOps | src/utils/bulkOps.ts:1-10 | one operation per item, in item order; operation i filters by item i's id, sets item i whole, and upserts; empty in, empty out |
| BulkOps.WrittenKeys | src/utils/bulkOps.ts:3-7 | the keys written by a batch are exactly its filter ids |
| BulkOps.WrittenIsLastWrite | src/utils/bulkOps.ts:3-7 | each key holds the item of the last operation that targets it |
| BulkOps.ApplyUpsertsIsOverlay | src/utils/bulkOps.ts:3-7 | an upsert batch overlays its writes on the collection |
| BulkOps.UpsertEffect | src/utils/bulkOps.ts:1-10 | afterwards every item's id is present; the keys are the old keys plus the item ids; keys outside the batch are unchanged; an id's last item is stored |
| BulkOps.UpsertIdempotent | src/utils/bulkOps.ts:1-10 | applying the same upsert batch twice leaves the same collection as applying it once |
| Repository.CheckRecordExists | src/infrastructure/repository/ChargingStationRepository.ts:34-42 | `findOne({id})`: the stored document when there is one, nothing when there is none; a failing lookup is re-thrown as an Error |
| Repository.FirstWriteFault | src/infrastructure/repository/ChargingStationRepository.ts:16-27 | there is a failure message exactly when some write fails, and it is the first failing write's in write order |
| Repository.WrittenOfWrites | src/infrastructure/repository/ChargingStationRepository.ts:17-22 | the writes issued are addresses, then connections, then stations, stopping after the first failure |
| Repository.WritesInOrder | src/infrastructure/repository/ChargingStationRepository.ts:17-22 | in the whole call's log, the collections are written in the order addresses, connections, stations, and nothing is written after a failure |
| Repository.SessionLifecycle | src/infrastructure/repository/ChargingStationRepository.ts:14-31 | the call starts a session and a transaction; it commits exactly when all three writes succeed and aborts otherwise; the session ends last on every path |
| Repository.SessionReplay | src/infrastructure/repository/ChargingStationRepository.ts:14-31 | replayed through the session state machine, the log is well formed: committed or aborted, then ended |
| Repository.ReplayAppend | src/infrastructure/repository/ChargingStationRepository.ts:14-31 | replaying a log in two parts is replaying it whole |
| Repository.ReplayWrites | src/infrastructure/repository/ChargingStationRepository.ts:18-22 | bulk writes leave an open transaction open |
| Repository.UpsertOutcome | src/infrastructure/repository/ChargingStationRepository.ts:16-28 | the call succeeds exactly when no write fails, and then all three batches are applied; otherwise it throws 'error during insert to mongodb: ' plus the first failure's message |
| Repository.NoRollbackOnStationFailure | src/infrastructure/repository/ChargingStationRepository.ts:18-25 | when the stations write fails, the addresses and connections stay written in full, and so do the stations before the fault |
| Repository.ChargingStationRepository.constructor | src/infrastructure/repository/ChargingStationRepository.ts:10-12 | the repository starts on the given collections with an empty log |
| Repository.ChargingStationRepository.BulkUpsert | src/infrastructure/repository/ChargingStationRepository.ts:13-32 | the new collections, the log appended for the call and the result are those of the session run above |
| Normalizer.FlattenLayout | src/service/ChargingStationService.ts:100-114 | the flattened connection list is the records' connection lists laid end to end; record i's occupy [Offset(i), Offset(i+1)) |
| Normalizer.FlattenPrefix | src/service/ChargingStationService.ts:100-114 | flattening a prefix of the records gives a prefix of the flattened list |
| Normalizer.FlattenLength | src/service/ChargingStationService.ts:100-114 | the flattened list is as long as the records' connection counts added up (`TotalConnections`) |
| Normalizer.FirstError | src/service/ChargingStationService.ts:98 | a stage's Promise.all fails exactly when a lookup fails, with the first failing lookup's error |
| Normalizer.Lookups | src/service/ChargingStationService.ts:78-81 | one existence lookup per id, in order, each on the store as it was before the call |
| Normalizer.StageOutcome | src/service/ChargingStationService.ts:76-98 | a stage rejects exactly when one of its ids' lookups fails, with the error of the first one |
| Normalizer.NormalizeFailure | src/service/ChargingStationService.ts:74-142 | normalization fails exactly when some lookup fails, with the first failing lookup of the first failing stage (addresses, connections, stations) |
| Normalizer.ResolvedLookups | src/infrastructure/repository/ChargingStationRepository.ts:34-42 | with no failing lookup, each lookup gives the stored document with that id, if any |
| Normalizer.AddressStageDocuments | src/service/ChargingStationService.ts:76-98 | one address document per record, with the catalog's fields; the stored `_id` for a known id, otherwise the fresh id of its slot |
| Normalizer.ConnectionStageDocuments | src/service/ChargingStationService.ts:100-116 | one connection document per flattened connection, by the same rule |
| Normalizer.StationDocsFields | src/service/ChargingStationService.ts:118-140 | each station document copies its record's scalar fields and holds the address `find` result and the connection filter result |
| Normalizer.StationStageDocuments | src/service/ChargingStationService.ts:118-142 | one station document per record, by the same reuse-or-fresh rule, with its references |
| Normalizer.StationStageReferences | src/service/ChargingStationService.ts:128-131 | each station's `addressInfo` is the `find` over the built addresses, and its `connections` the filter over the built connection list |
| Normalizer.NormalizedParts | src/service/ChargingStationService.ts:144-148 | a successful normalization is the three stages' lists, the stations built over the other two |
| Normalizer.NormalizedAddresses | src/service/ChargingStationService.ts:76-98 | `addresses` has one entry per record in input order, copies the catalog fields, and reuses the stored `_id` or takes slot i's fresh id |
| Normalizer.NormalizedConnections | src/service/ChargingStationService.ts:100-116 | `connectionList` is the in-order flattening of every record's connections, each reusing the stored `_id` or taking its own fresh id |
| Normalizer.NormalizedStations | src/service/ChargingStationService.ts:118-142 | `chargingStationsList` has one entry per record in input order, copies the scalar fields and dates, and reuses the stored `_id` or takes a fresh id |
| Normalizer.BatchLengths | src/service/ChargingStationService.ts:76-142 | there are as many addresses and stations as records, and as many connection documents as connections |
| Normalizer.FreshAddressSlot | src/service/ChargingStationService.ts:93 | an address whose id is not stored takes a fresh id |
| Normalizer.FreshConnectionSlot | src/service/ChargingStationService.ts:111 | a connection whose id is not stored takes a fresh id |
| Normalizer.FreshStationSlot | src/service/ChargingStationService.ts:138 | a station whose id is not stored takes a fresh id |
| Normalizer.FreshIdsDistinct | src/service/ChargingStationService.ts:93-138 | with a supply that never repeats, no two new documents of one list share an `_id` |
| Normalizer.FreshAddressConnectionApart | src/service/ChargingStationService.ts:93-111 | nor does a new address share one with a new connection |
| Normalizer.FreshAddressStationApart | src/service/ChargingStationService.ts:93-138 | nor a new address with a new station |
| Normalizer.FreshConnectionStationApart | src/service/ChargingStationService.ts:111-138 | nor a new connection with a new station |
| Normalizer.FirstIndex | src/service/ChargingStationService.ts:128 | the position of the first occurrence of an id |
| Normalizer.FindAddressFinds | src/service/ChargingStationService.ts:128 | `find` gives nothing exactly when no address has the id, and otherwise the `_id` of the first address that has it |
| Normalizer.AddressReference | src/service/ChargingStationService.ts:128 | a station's `addressInfo` is the `_id` of the address built for the first record with its address id, never a later record |
| Normalizer.InternalIds | src/service/ChargingStationService.ts:131 | `map(obj => obj._id)`: the documents' ids in order |
| Normalizer.ConnectionRefsAppend | src/service/ChargingStationService.ts:129-131 | filtering a concatenation is concatenating the filtered parts |
| Normalizer.ConnectionRefsMembers | src/service/ChargingStationService.ts:129-131 | an id is referenced exactly when some document in the list carries it and has the id of one of the record's connections |
| Normalizer.ConnectionRefsKeepsAll | src/service/ChargingStationService.ts:129-131 | a list all of whose ids match keeps every document |
| Normalizer.ConnectionRefsDropsAll | src/service/ChargingStationService.ts:129-131 | a list none of whose ids match keeps nothing |
| Normalizer.DistinctIdsApart | src/service/ChargingStationService.ts:129-131 | in an id list without repeats, two positions hold different ids |
| Normalizer.BlockKept | src/service/ChargingStationService.ts:129-131 | the documents of a record's own block are kept by its filter |
| Normalizer.BlockUnique | src/service/ChargingStationService.ts:129-131 | with no repeated id, no document outside the block matches the record |
| Normalizer.BlockSelected | src/service/ChargingStationService.ts:129-131 | then the filter yields exactly the block's ids, in order |
| Normalizer.BlockIds | src/service/ChargingStationService.ts:100-116 | the documents of a record's block carry that record's connection ids |
| Normalizer.DistinctBlockForeign | src/service/ChargingStationService.ts:129-131 | with no repeated connection id, no document outside a block carries one of the block's ids |
| Normalizer.RecordBlockSelected | src/service/ChargingStationService.ts:129-131 | over documents in flattened order, record i's filter selects exactly record i's block |
| Normalizer.ConnectionDocIds | src/service/ChargingStationService.ts:100-116 | connection document j carries the id of flattened connection j |
| Normalizer.StationRefs | src/service/ChargingStationService.ts:129-131 | station i's `connections` is the filter over the whole connection list |
| Normalizer.StationConnectionBlock | src/service/ChargingStationService.ts:100-131 | where record i's connection documents sit in the list, and that station i's references are computed over that list |
| Normalizer.OwnConnectionsReferenced | src/service/ChargingStationService.ts:129-131 | every connection document of a record is referenced by that record's station |
| Normalizer.StationConnections | src/service/ChargingStationService.ts:129-131 | with no repeated connection id, a station references exactly its own record's connections, in `connectionList` order |
| ImportService.ImportResult | src/service/ChargingStationService.ts:151-153 | any failure surfaces as an APIError with status 500 |
| ImportService.ImportDataToDB | src/service/ChargingStationService.ts:74-155 | the new collections, the log and the result are those of normalizing on the store at the start, then one `bulkUpsert` of the three lists |
| ImportService.ImportOutcome | src/service/ChargingStationService.ts:74-155 | the import succeeds exactly when no lookup and no write fails; a failed lookup gives an APIError with the lookup's message; a failed write gives an APIError with bulkUpsert's message |
| ImportService.ImportLog | src/service/ChargingStationService.ts:144-149 | a failed normalization writes nothing; otherwise bulkUpsert runs once, and when no write fails its log shows the three writes sized by the record, connection and record counts |
| ImportService.DistinctFirstIndex | src/service/ChargingStationService.ts:128 | in a list without repeats, an id's first occurrence is its own position |
| ImportService.AddressStored | src/service/ChargingStationService.ts:76-98 | with no repeated address id, each record's address document is stored as built under its id |
| ImportService.ConnectionStored | src/service/ChargingStationService.ts:100-116 | with no repeated connection id, each connection document is stored as built under its id |
| ImportService.StationStored | src/service/ChargingStationService.ts:118-142 | with no repeated station id, each station document is stored as built under its id |
| ImportService.AddressReferenceResolves | src/service/ChargingStationService.ts:128 | a station's `addressInfo` names the stored address with its record's address id |
| ImportService.StationConnectionCount | src/service/ChargingStationService.ts:129-131 | a station holds one reference per connection of its record |
| ImportService.ConnectionReferenceResolves | src/service/ChargingStationService.ts:129-131 | reference m of a station names the stored connection with the id of its record's connection m |
| ImportService.ConnectionReferencesResolve | src/service/ChargingStationService.ts:129-131 | all of a station's connection references resolve, in order, to the stored connections of its record |
| ImportService.ReimportAddresses | src/service/ChargingStationService.ts:78-93 | re-importing the catalog into the store the import left rebuilds the same addresses, now keeping their stored ids |
| ImportService.ReimportConnections | src/service/ChargingStationService.ts:103-111 | the same for connections |
| ImportService.StationCount | src/service/ChargingStationService.ts:118-142 | one station document per record |
| ImportService.ReimportStation | src/service/ChargingStationService.ts:119-138 | a re-imported station equals the first import's, id and references included |
| ImportService.ReimportStations | src/service/ChargingStationService.ts:118-142 | the same for the whole station list |
| ImportService.ReimportIsIdempotent | src/service/ChargingStationService.ts:74-155 | re-importing an unchanged catalog without repeated ids rebuilds exactly the first batch, whatever fresh ids are on offer, and writing it again changes nothing |
| Fetcher.Backoff | src/service/ChargingStationService.ts:43 | `Math.pow(2, 5 - retries) * 1000` ms, exactly, and always positive |
| Fetcher.BackoffDoubles | src/service/ChargingStationService.ts:43 | the delay doubles with each retry used up |
| Fetcher.BackoffSeconds | src/service/ChargingStationService.ts:43 | with 1 to 5 retries left, the delay is 16, 8, 4, 2 and 1 seconds |
| Fetcher.GiveUpError | src/service/ChargingStationService.ts:39-49 | a failure ends the call exactly when it is a 403 or no retries are left; a 403 with retries left gives AuthorizeError('Invalid API key'), status 403; otherwise an APIError 'Failed to fetch data from API: ' plus the message, status 500 |
| Fetcher.FetchRunStep | src/service/ChargingStationService.ts:28-49 | one call of the recursion: a request, then the result, the error, or a wait and the next call |
| Fetcher.FetchOpenChargeMapData | src/service/ChargingStationService.ts:24-51 | the loop's result, page sizes requested and delays waited are those of the recursion as written |
| Fetcher.FirstResponseReturned | src/service/ChargingStationService.ts:28-37 | a successful first request returns its body after one request of the caller's page size |
| Fetcher.GiveUpIsImmediate | src/service/ChargingStationService.ts:39-48 | a failure that ends the call ends it at once: no wait and no further request |
| Fetcher.RequestsAndWaits | src/service/ChargingStationService.ts:24-51 | one request per outcome consumed, the first of the caller's page size, and one wait per retried failure |
| Fetcher.AsWrittenNeverGivesUp | src/service/ChargingStationService.ts:42-45 | as written, a server that keeps failing is retried without end; later retries ask for `maxRetries - 1` results and wait `Backoff(maxRetries)` |
| Fetcher.AsWrittenExample | src/service/ChargingStationService.ts:45 | with three retries, five failures for ten results ask for 10, 2, 2, 2, 2 and still retry |
| Fetcher.IntendedIsBounded | src/service/ChargingStationService.ts:42-45 | the corrected retry sends at most `retries + 1` requests, all of the caller's page size, each wait twice the next |
| Fetcher.IntendedGivesUp | src/service/ChargingStationService.ts:39-48 | against a failing server, the corrected retry gives up after exactly `retries + 1` requests with the last failure's APIError |
| Cache.CacheAside.constructor | src/service/ChargingStationService.ts:53-56 | the cache starts with the given entries, no expiries and no fetches |
| Cache.CacheAside.GetCachedData | src/service/ChargingStationService.ts:53-72 | the result and the new cache state are those of the cache-aside run |
| Cache.CacheKeyIsFixed | src/service/ChargingStationService.ts:55 | the key is 'openchargemap:ChargingStations' whatever the page size, and no other key is read or written |
| Cache.CacheHit | src/service/ChargingStationService.ts:56-60 | a hit returns the cached value, fetches nothing and changes nothing |
| Cache.CacheMiss | src/service/ChargingStationService.ts:62-67 | a miss fetches once with the caller's page size, stores the data under the key for 3600 s and returns it; a failed fetch or write is re-thrown unchanged |
| Cache.CacheReadFailure | src/service/ChargingStationService.ts:68-71 | a failed read is re-thrown before anything else happens |
| Cache.CacheResult | src/service/ChargingStationService.ts:53-72 | at most one fetch per call; the result is what redis held or what that fetch gave, and it is cached afterwards |
| Cache.PageSizeIgnoredOnceCached | src/service/ChargingStationService.ts:55-62 | once filled, the cache answers a call with any page size with the first call's data, without fetching |
| Workers.Decision | src/service/ChargingStationService.ts:162-178 | an error message rejects with the message object, any other message resolves true, an error event rejects with its message text, a non-zero exit rejects with 'Worker stopped with exit code N', exit 0 does nothing |
| Workers.FirstDecision | src/service/ChargingStationService.ts:158-179 | the first event that settles the promise settles it with a non-pending value |
| Workers.WorkerRun.constructor | src/service/ChargingStationService.ts:158-161 | the worker gets its limit and the promise starts pending |
| Workers.WorkerRun.OnEvent | src/service/ChargingStationService.ts:162-178 | the event's handler settles a pending promise as Decision says and leaves a settled one alone; only a non-zero exit terminates |
| Workers.WorkerRun.Resolve | src/service/ChargingStationService.ts:158 | `resolve` settles only a pending promise |
| Workers.WorkerRun.Reject | src/service/ChargingStationService.ts:158 | `reject` settles only a pending promise |
| Workers.WorkerRun.Deliver | src/service/ChargingStationService.ts:162-178 | delivering events in order folds them through the handlers and counts the terminations |
| Workers.RunWorker | src/service/ChargingStationService.ts:157-180 | the promise ends as the first settling event decides, or stays pending; terminate is called once per non-zero exit |
| Workers.SettledStays | src/service/ChargingStationService.ts:158-179 | a settled promise stays as it is, whatever events follow |
| Workers.SettleAllAppend | src/service/ChargingStationService.ts:158-179 | events can be delivered in two parts |
| Workers.FirstDecisionAppend | src/service/ChargingStationService.ts:158-179 | an event after events that settled nothing decides |
| Workers.SettleAllIsFirstDecision | src/service/ChargingStationService.ts:157-180 | settle-once: folding the handlers gives the first event's decision |
| Workers.WorkerScenarios | src/__tests__/ChargingStationService.test.ts:143-195 | the scenarios of the service's test file: a success message and the worker's 'done' resolve true; an error message rejects with the object; an error event rejects with 'Worker error'; exit 1 rejects with 'Worker stopped with exit code 1' and terminates; exit 0 leaves the promise pending |
| Coordinator.Launched | src/service/ChargingStationService.ts:187-189 | the loop runs CONCURRENCY times, or not at all when that is negative |
| Coordinator.StateStep | src/service/ChargingStationService.ts:190 | a trace entry changes only its own worker's promise |
| Coordinator.EventsOfSplit | src/service/ChargingStationService.ts:190 | a worker's events split at any point of the trace |
| Coordinator.RejectionHasCause | src/service/ChargingStationService.ts:190 | a rejected promise was rejected by some entry while it was pending |
| Coordinator.SettledIsFinal | src/service/ChargingStationService.ts:190 | a promise settled partway through the trace ends the trace that way |
| Coordinator.NoRejectionNoFailure | src/service/ChargingStationService.ts:190 | a trace in which no entry rejects a pending promise leaves none rejected |
| Coordinator.Step | src/service/ChargingStationService.ts:190 | delivering an entry keeps one promise per worker |
| Coordinator.PromisesStep | src/service/ChargingStationService.ts:190 | stepping the promise array follows the trace, and an entry rejects exactly when its worker's promise goes from pending to rejected |
| Coordinator.NoRejectionBeforeAll | src/service/ChargingStationService.ts:190 | no entry before k rejects a pending promise |
| Coordinator.FirstRejectionFinal | src/service/ChargingStationService.ts:190 | the first rejecting entry's reason is its worker's final state |
| Coordinator.AwaitAll | src/service/ChargingStationService.ts:190 | Promise.all resolves exactly when all promises resolve; it rejects exactly when one is rejected, with the reason of the first rejecting entry |
| Coordinator.ImportDataConcurrently | src/service/ChargingStationService.ts:182-195 | CONCURRENCY calls of runWorker(BATCH_SIZE); the call succeeds exactly when all resolve, and otherwise throws APIError(reason.message) for the first rejection in trace order |
| Coordinator.RejectionMessages | src/service/ChargingStationService.ts:170-193 | the message of the thrown APIError: the worker's message for an error message, the default 'api error' for an error event (whose bare string has no `message`), the exit text for an exit |
| Response.SerializeItems | src/utils/response.ts:5-8 | serializing keeps an array's length |
| Response.SerializeGivesJsonValue | src/utils/response.ts:5-8 | whatever goes in, the round trip through JSON gives a value JSON can carry |
| Response.ItemsGiveJsonValues | src/utils/response.ts:5-8 | the same for array elements |
| Response.MembersGiveJsonValues | src/utils/response.ts:5-8 | the same for object members |
| Response.SerializeKeepsJsonValue | src/utils/response.ts:5-8 | on a value JSON can carry, the round trip is the identity |
| Response.ItemsKeepJsonValues | src/utils/response.ts:5-8 | the same for array elements |
| Response.MembersKeepJsonValues | src/utils/response.ts:5-8 | the same for object members |
| Response.SerializeIdempotent | src/utils/response.ts:5-8 | serializing twice is serializing once |
| Response.FieldsOfBody | src/utils/response.ts:1-18 | the body's only keys are `message` and `data`, and each holds the serialized value |
| Response.SerializedBody | src/utils/response.ts:1-18 | the serialized body drops an undefined message and holds `data` only when it was included |
| Response.FormatResponse | src/utils/response.ts:1-18 | the status code passes through; the body has only `message` and `data`; `data` is present exactly when truthy, and `message` unless undefined |
| Response.SuccessResponse | src/utils/response.ts:20-22 | `formatResponse(200, 'success', data)` |
| Response.ErrorResponse | src/utils/response.ts:24-32 | the code defaults to 1000; a non-array error gives its string form as message and itself as data; an empty array throws; on an array, message and data are the same value |
| Response.ErrorText | src/utils/response.ts:30 | an Error's string form is its name and message joined by ": ", either alone when the other is empty |
| Response.ErrorValue | src/utils/error.ts:8-18 | an error instance reads the name and message the constructor assigned |
| Response.ErrorResponseOnError | src/utils/response.ts:24-32 | for an APIError or AuthorizeError, the message is "name: message" and the data is the plain object of name, message and status code |
| Response.ErrorResponseOnAPIError | src/utils/response.ts:24-32 | `ErrorResponse(500, new APIError(x))` answers "api internal server error: x" |
| Response.ErrorResponseOnValidationErrors | src/utils/response.ts:25-28 | the first constraint's value, or 'Error occured' when it is missing or falsy, is both message and data |

## Left out

- Network, redis, mongoose and the worker-thread runtime are not modelled.
  - Their results are parameters.
  - A request's outcome is an entry of an attempt list.
  - Lookup and write failures are fault maps.
  - A cache read or write failure is an optional message.
  - A worker's behaviour is the list of events it emits.
- Fetcher.FetchOpenChargeMapData: the HTTP client is a finite list of outcomes. A call that still wants to request once the list is used up ends in `OutOfAttempts`, a result the source does not have. This is how an endless retry shows up in the model.
- The rate limiter (`limiter.schedule`) is modelled as passing the request straight through. The service imports `limiter` from src/utils/rateLimiter.ts (src/service/ChargingStationService.ts:4), but that file exports only the `rateLimit` middleware (src/utils/rateLimiter.ts:8), so what `limiter.schedule` does is not visible in the repository; the pass-through is an assumption. The timers of the backoff are recorded as delays, not waited.
- Response.ErrorResponse: JavaScript's `Object.keys` lists integer-like keys first, in ascending order; the model keeps members in the order given, so `FirstOwnValue` takes the first member as listed.
- Response.ErrorResponse: a `JObj` may hold the same key twice, which a JavaScript object cannot; `FieldIn` takes the first.
- Response.ErrorResponse: strings are sequences of Unicode characters, not UTF-16 code units, so `Object.values` of a string with a character outside the Basic Multilingual Plane gives its whole first character rather than the first surrogate.
- Response.ErrorResponse: the own-property order of an error (`ErrorValue`) follows the constructor's assignments, name, message, status code; under a compiler setting that defines class fields before the constructor runs, `statusCode` would come first.
- src/utils/constant.ts is not part of this model.
  - `MAX_RETRIES` is the parameter `maxRetries`.
  - `OPENCHARGEMAP_URL` and the API key are not modelled.
  - `REDIS_CACHE_KEY` is "ChargingStations", the value the service's tests expect.
- Cache.CacheAside.GetCachedData: the cache is assumed never to hold an empty (falsy) string. JSON text is not modelled: the cached value is the catalog itself, because `JSON.parse` undoes `JSON.stringify` on it. Redis expiry is recorded, not enforced over time.
- Normalizer.FirstError: Promise.all rejects with the first lookup to fail in time. The model takes the first failing lookup in input order. All lookups of a stage read the store as it was when the call began.
- Normalizer.Normalize: uuidv4 is an injected supply `gen`. Each document has its own slot in it: addresses first, then connections, then stations. The supply never repeating is the hypothesis `Injective(gen)`, not a property of the model.
- Repository.CheckRecordExists: `new Error(error)` takes the string form of the driver's error as its message. The model keeps that form as a given string.
- Repository.ChargingStationRepository.BulkUpsert:
  - `$set` of every field of a document replaces that document.
  - MongoDB's refusal to change `_id`, and the `timestamps` fields, are not modelled.
  - A failing ordered bulk write is described by how many of its operations took effect.
- Floating-point values (latitude, longitude, powerKW) and dates are opaque. `new Date(text)` is a constructor over the text. In Response, numbers are integers and NaN. `StringForm` writes every digit of an integer, whereas JavaScript's `${n}` switches to exponent notation from 1e21 up and holds integers above 2^53 only approximately, so the model's string forms agree with JavaScript's only for integers of magnitude below 2^53.
- Worker threads run in parallel. Here their events form one interleaved trace. Sibling workers are not cancelled after a rejection, and the model does not speak of them.
- `parseInt` of BATCH_SIZE and CONCURRENCY is taken as given integers.
- Logging (`logger`) is not modelled.
- These files are not part of this model:
  - src/utils/retryPolicy.ts, src/utils/rateLimiter.ts, src/worker.ts;
  - the bootstrap in src/workers/worker.ts, except the message shapes it posts;
  - the resolver, schema, cron and index files.

## Findings

| source | as written | input that shows it | evidently intended | confidence | as-written member | corrected member |
|---|---|---|---|---|---|---|
| src/service/ChargingStationService.ts:45 | a retry calls `this.fetchOpenChargeMapData(retries - 1)`, so `retries - 1` becomes the next page size (`maxresults`) and the retry count restarts at MAX_RETRIES, so it never reaches 0 | with MAX_RETRIES = 3, five failed (status 500) requests for 10 results ask for page sizes 10, 2, 2, 2, 2 and the call is still retrying | `this.fetchOpenChargeMapData(maxresults, retries - 1)`, giving up after `retries + 1` requests of the same page size | high (not executed) | Fetcher.AsWrittenNeverGivesUp | Fetcher.IntendedGivesUp |
