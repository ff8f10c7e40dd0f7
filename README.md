# MedellínBot core, modelled in Dafny

MedellínBot is a Telegram assistant for the city of Medellín. A webhook
receives Telegram updates, screens them and hands each message to an
orchestrator. The orchestrator classifies the intent with an LLM, keeps a
short conversation context and routes the request to a specialised agent
(trámites, PQRSD, social programmes, notifications). Behind the agents, a
scraping tier collects public records and runs them through a processing
pipeline:

- cleaning;
- structural validation;
- deduplication by content fingerprint;
- normalisation;
- a quality band.

It then stores the batch in Cloud SQL, in Firestore or in both, indexes it
for vector search and caches it. Small supporting pieces surround this:

- a JSON-schema validator, a token bucket and retry loops;
- a TTL document store over Firestore and the source-configuration table;
- an alert monitor with rule deduplication;
- a performance monitor with bounded histories, derived metrics, threshold alerts and severities.

This project models that core in Dafny 4.11 and proves what each piece
promises. There is one module per source file, plus three shared modules:

- `Wrappers` holds `Option` and `Result`.
- `Text` holds Python's `str.strip`, `split`, `' '.join`, `lower`/`upper`, `in` on strings and `str(int)`.
- `Json` holds a JSON-like `Value` and the ordered dict `Record = seq<(string, Value)>`, with `get`, assignment and truthiness.

`Security` holds the request guards that the orchestrator and the webhook both
define: the injection screen, the recursive response sanitiser (parameterised
by the set of sensitive keys) and the in-memory sliding-window rate limiter.

Code that loops in the source is a method whose loop invariants tie the
accumulator to a specification function of the prefix it has consumed. Code
that updates an object in place is a class with `modifies` clauses:

- the token bucket;
- the Firestore manager over a map-valued store;
- the source-configuration table;
- the alert monitor and the scrape context;
- the sliding-window limiter;
- the performance monitor's histories and alert list.

Pure code is functions and lemmas. Anything the code cannot decide by itself
is a parameter:

- database, cache and vector writes are boolean outcomes;
- LLM replies and `json.loads` results are values;
- regular-expression searches are predicates;
- `strptime`, MD5 and SHA-256 are functions;
- the clock is a number;
- float formatting is a function from `real` to `string`.

Where a test file expects something the code does not do, the model follows
the code. `webhook/app.py:311-312` answers an empty dict with "Empty payload"
(an empty dict is falsy). The expectation at `tests/test_webhook.py:111-119`
is different; see `Webhook.EmptyDictIsEmptyPayload`.

## Model

| member | source | states |
|---|---|---|
| DataProcessor.CleanValue | web_scraping/services/data_processor.py:127-134 | a field is dropped iff its value is None or a string that strips to empty; a kept string is stripped and non-empty |
| DataProcessor.CleanFieldsSpec | web_scraping/services/data_processor.py:125-134 | every cleaned value is neither None nor an empty or unstripped string, and each comes from an item of the input with the same key |
| DataProcessor.CleanFieldsKeepsKeys | web_scraping/services/data_processor.py:127-134 | every item whose value survives cleaning keeps its key in the cleaned dict |
| DataProcessor.CleanRecord | web_scraping/services/data_processor.py:136-141 | a cleaned record always has `type` and `extracted_at`; `type` is `'unknown'` unless the record supplied one, and `extracted_at` is the clock reading unless supplied |
| DataProcessor.SetKeyKeepsClean | web_scraping/services/data_processor.py:137-141 | adding a clean value to a clean dict keeps it clean |
| DataProcessor.CleanRecordValues | web_scraping/services/data_processor.py:125-141 | with a clock that renders as a stripped non-empty string, no value of a cleaned record is None, empty or unstripped |
| DataProcessor.Cleaned | web_scraping/services/data_processor.py:117-145 | the cleaned batch is no longer than the input and every record in it has `type` and `extracted_at` |
| DataProcessor.CleanedSpec | web_scraping/services/data_processor.py:121-123 | cleaning keeps exactly one record per dict of the input (non-dicts are dropped), and every value of every record is clean |
| DataProcessor.CleanRecordOf | web_scraping/services/data_processor.py:125-141 | the per-record loop builds exactly the cleaned record |
| DataProcessor.CleanData | web_scraping/services/data_processor.py:117-145 | `_clean_data`'s loop returns exactly the cleaned batch |
| DataProcessor.ErrorMessages | web_scraping/services/data_processor.py:160-176 | one message per validation error, in order |
| DataProcessor.RequiredFieldErrors | web_scraping/services/data_processor.py:157-160 | the missing-field errors of record i name i and fields the record lacks; there are none iff it has both `type` and `extracted_at` |
| DataProcessor.CheckDate | web_scraping/services/data_processor.py:163-171 | only `date` may be rewritten; the record gets one "Invalid date format" error iff it has a truthy date that does not parse |
| DataProcessor.CheckRecord | web_scraping/services/data_processor.py:174-176 | checking a record raises iff it has a truthy `url` that is not a string (`.startswith` on a non-string) |
| DataProcessor.CheckRecordErrors | web_scraping/services/data_processor.py:154-176 | every error of record i names i and is justified: a missing field, an unparseable truthy date, or a truthy URL not starting with http:// or https:// |
| DataProcessor.CountRejected | web_scraping/services/data_processor.py:178-181 | at most as many records are rejected as there are records |
| DataProcessor.ValidateRaises | web_scraping/services/data_processor.py:154-183 | validation raises iff the check of some record raises |
| DataProcessor.ValidateKeepsErrorFree | web_scraping/services/data_processor.py:178-181 | kept plus rejected records make up the batch, and every kept record is one whose check reported no error |
| DataProcessor.ValidateErrorsFromChecks | web_scraping/services/data_processor.py:178-183 | every reported error was produced by the check of the record it names |
| DataProcessor.CheckerOfIndexes | web_scraping/services/data_processor.py:154-176 | the validator's own check only produces errors naming the record's index |
| DataProcessor.RaisedPersists | web_scraping/services/data_processor.py:154-183 | once a prefix raises, the whole batch raises with the same message |
| DataProcessor.ValidateDataStructure | web_scraping/services/data_processor.py:147-183 | records are checked in order: an error-free record is kept, the errors of the others are collected, and a record whose check raises stops the batch with that exception |
| DataProcessor.SameContentSameFingerprint | web_scraping/services/data_processor.py:196-199 | for records whose hashed content is dict-shaped (no key repeated at any depth), two records have the same fingerprint, and the later one is a duplicate, iff their contents without `extracted_at` and `content_hash` differ only in the order of keys, at any depth |
| Json.ReorderedIffSameCanonical | web_scraping/services/data_processor.py:196-199 | two dict-shaped values have the same `json.dumps(..., sort_keys=True)` form exactly when one is the other with the keys of its dicts reordered, at any depth |
| DataProcessor.StampKeepsFingerprint | web_scraping/services/data_processor.py:196-205 | adding `content_hash` does not change a record's fingerprint |
| DataProcessor.DedupBy | web_scraping/services/data_processor.py:194-210 | kept records plus duplicates equal the input length |
| DataProcessor.DedupSeen | web_scraping/services/data_processor.py:192-204 | the seen set holds exactly the keys of the batch's records |
| DataProcessor.FirstOccurrences | web_scraping/services/data_processor.py:203-206 | the listed first-occurrence positions are below the bound |
| DataProcessor.FirstOccurrencesSpec | web_scraping/services/data_processor.py:203-206 | the list holds, in ascending order, exactly the positions that are first occurrences of their key |
| DataProcessor.SeenIffRepeated | web_scraping/services/data_processor.py:203-208 | a record's key was already seen iff the record is not the first with that key |
| DataProcessor.DedupKeepsFirstOccurrences | web_scraping/services/data_processor.py:194-208 | deduplication keeps, in order, exactly the stamped first occurrences |
| DataProcessor.DedupKeptSeen | web_scraping/services/data_processor.py:203-206 | every kept record's key is in the seen set |
| DataProcessor.DedupKeysDistinct | web_scraping/services/data_processor.py:203-206 | no two kept records share a key |
| DataProcessor.StampCarriesDigest | web_scraping/services/data_processor.py:201-205 | a stamped record's `content_hash` is the digest of its own fingerprint |
| DataProcessor.DedupKeptStamped | web_scraping/services/data_processor.py:204-206 | every kept record is the stamped form of an input record |
| DataProcessor.DeduplicatedFirstOccurrences | web_scraping/services/data_processor.py:185-210 | for a batch `json.dumps` can write, `_remove_duplicates` keeps the first record of every sorted-keys content, in order, each with its hash |
| DataProcessor.DeduplicatedDigests | web_scraping/services/data_processor.py:196-206 | kept records have pairwise different sorted-keys contents and each carries the digest of its own content |
| DataProcessor.RemoveDuplicates | web_scraping/services/data_processor.py:185-210 | a datetime anywhere in a record's hashed content makes the step raise `Object of type datetime is not JSON serializable`, and only then; otherwise a record whose sorted-keys content appeared earlier in the batch is counted as a duplicate and every other is kept, in order, with its hash stamp; kept plus duplicates is the batch size (an empty batch gives `([], 0)`) |
| DataProcessor.DropBlankItems | web_scraping/services/data_processor.py:226-228 | the filtered list holds exactly the items that are neither `''` nor None, and a list without such items is unchanged |
| DataProcessor.NormalizeValueIdempotent | web_scraping/services/data_processor.py:219-228 | normalising a value twice is normalising it once |
| DataProcessor.NormalizeRecord | web_scraping/services/data_processor.py:216-230 | normalisation keeps a record's length and key list |
| DataProcessor.Normalized | web_scraping/services/data_processor.py:212-232 | normalisation keeps the number of records |
| DataProcessor.NormalizedSpec | web_scraping/services/data_processor.py:212-232 | same count and keys per record; strings get their whitespace collapsed, lists lose `''`/None, and normalising twice is normalising once |
| DataProcessor.NormalizeDataFormats | web_scraping/services/data_processor.py:212-232 | `_normalize_data_formats`'s loops return exactly the normalised batch |
| DataProcessor.BandMonotone | web_scraping/services/data_processor.py:249-262 | for a fixed total, more complete records never lower the band and more errors never raise it |
| DataProcessor.CompleteCount | web_scraping/services/data_processor.py:245-247 | complete records are at most all records |
| DataProcessor.QualityScore | web_scraping/services/data_processor.py:234-262 | empty data is INVALID; HIGH needs completeness ≥ 0.9 and error ratio ≤ 0.1; error ratio > 0.3 or completeness < 0.5 is INVALID |
| DataProcessor.MissingImportant | web_scraping/services/data_processor.py:383-387 | lists exactly those of title, content and description that are missing or falsy |
| DataProcessor.WarningMessages | web_scraping/services/data_processor.py:389-390 | one message per warning, in order |
| DataProcessor.WarningsOf | web_scraping/services/data_processor.py:385-390 | warnings name records of the batch in strictly increasing order |
| DataProcessor.WarningsMissing | web_scraping/services/data_processor.py:386-390 | each warning lists exactly the important fields its record is missing |
| DataProcessor.WarnedAt | web_scraping/services/data_processor.py:389 | record i is warned about iff at least two important fields are missing |
| DataProcessor.WarningsSpec | web_scraping/services/data_processor.py:378-392 | at most one warning per record, one exactly when at least two important fields are missing, listing them |
| DataProcessor.GenerateWarnings | web_scraping/services/data_processor.py:378-392 | one message per record missing two or more of title, content and description, in record order, naming the record's index and the missing fields |
| DataProcessor.StringFields | web_scraping/services/data_processor.py:336-340 | the parts are exactly the string values of the listed fields; none iff no listed field holds a string |
| DataProcessor.LongStrings | web_scraping/services/data_processor.py:343-346 | the parts are exactly the string values longer than ten characters |
| DataProcessor.ExtractTextSpec | web_scraping/services/data_processor.py:331-348 | the important string fields are joined when any exists; only otherwise are the long strings joined |
| DataProcessor.PipelineReportsNoMissingFields | web_scraping/services/data_processor.py:68-72 | after cleaning, validation reports only date and URL errors, never a missing required field |
| DataProcessor.PipelineOutcome | web_scraping/services/data_processor.py:62-115 | a non-string truthy URL makes the pipeline fail with exactly `[str(e)]` for the first record whose URL does, no data, INVALID and 0 duplicates; a datetime in the hashed content of a validated record fails it the same way with the `json.dumps` message; otherwise success is the save outcome and processed records plus duplicates equal the validated records |
| DataProcessor.ProcessScrapedData | web_scraping/services/data_processor.py:62-119 | a result succeeds only when the database save did, and an empty result is rated INVALID |
| DataProcessor.ValidateRaisesFirst | web_scraping/services/data_processor.py:154-183 | a raising validation raises the message of the first record whose check raises; every record before it was checked |
| DataProcessor.CrashesAreUrlCrashes | web_scraping/services/data_processor.py:173-175 | a record's check raises exactly when its url is truthy and not a string |
| DataProcessor.FirstUrlCrashRaised | web_scraping/services/data_processor.py:173-175 | when some url crashes, validation raises the `.startswith` AttributeError of the first record whose url does |
| DataProcessor.ProcessingFailsAsWritten | web_scraping/services/data_processor.py:264-284 | as written the save answers False inside the running event loop, so no batch is processed successfully |
| StorageService.PrimaryOf | web_scraping/services/storage_service.py:28 | an unrecognised `primary_storage` string is kept as it is |
| StorageService.ResolveConfig | web_scraping/services/storage_service.py:107-110 | a custom config wins, then the table entry; an unknown type gets cloud_sql with cache and vector enabled |
| StorageService.PayloadSpec | web_scraping/services/storage_service.py:255-266 | the stored document is the record plus `source`, `data_type` and `stored_at`, with every other field unchanged |
| StorageService.FirstFailure | web_scraping/services/storage_service.py:255-270 | the first failing document set is the first index whose set fails, or none |
| StorageService.Each | web_scraping/services/storage_service.py:235-270 | one write per record, in order |
| StorageService.FirestoreWrites | web_scraping/services/storage_service.py:223-286 | at most one write per record |
| StorageService.FirestoreWritesTtl | web_scraping/services/storage_service.py:234-252 | with a truthy TTL, every record gets a temporary save |
| StorageService.FirestoreWritesSets | web_scraping/services/storage_service.py:253-270 | without a TTL, records are set one by one up to and including the first failing set |
| StorageService.TemporarySaveAt | web_scraping/services/storage_service.py:235-252 | one record on the TTL path is one temporary save with the config's TTL |
| StorageService.DocumentSetAt | web_scraping/services/storage_service.py:255-266 | one record on the document path is one document set |
| StorageService.SaveTemporaries | web_scraping/services/storage_service.py:234-252 | one temporary-data save per record, in record order, each built from the record, source, type and time stamp |
| StorageService.SetDocuments | web_scraping/services/storage_service.py:253-282 | one document set per record, in order, up to and including the first that fails; the result is True iff none fails |
| StorageService.StoreInFirestore | web_scraping/services/storage_service.py:223-286 | no manager: False and no writes; a TTL config: one temporary save per record and True; otherwise document sets up to the first failure, True iff none fails |
| StorageService.FirestoreWritesSpec | web_scraping/services/storage_service.py:223-286 | no manager: nothing written and False; a TTL: one temporary save per record with that TTL and True; otherwise document sets, True iff every set succeeds |
| StorageService.Collect | web_scraping/services/storage_service.py:301-313 | at most one entry per record |
| StorageService.CollectSpec | web_scraping/services/storage_service.py:301-313 | exactly the selected records give entries |
| StorageService.VectorEntriesSpec | web_scraping/services/storage_service.py:296-313 | every entry has non-blank text taken from one record, and every record with non-blank text gives its entry |
| StorageService.IndexRecords | web_scraping/services/storage_service.py:301-313 | the loop gathers one text, metadata and id per record with a non-blank text, in order, each triple being that record's entry |
| StorageService.StoreInVectorSearch | web_scraping/services/storage_service.py:288-358 | texts, metadata and ids are parallel lists, entry i of each taken from the same indexable record, in record order; no manager: False; nothing to index: True without embedding; otherwise embed and upsert must both succeed |
| StorageService.SuccessfulSpec | web_scraping/services/storage_service.py:126-178 | a backend is a stored location iff it was attempted and succeeded |
| StorageService.StorePrimary | web_scraping/services/storage_service.py:129-160 | the primary branch attempts only the mode's own backends and records exactly its successes and reported failures |
| StorageService.Called | web_scraping/services/storage_service.py:136-178 | one more backend call adds its location when it succeeds and its reported error when it fails, in call order |
| StorageService.StoreProcessed | web_scraping/services/storage_service.py:126-178 | the backends are called in store_data's order (the primary mode's stores, then vector search if enabled and present, then the cache); the locations are the called backends that succeeded and the errors those of the ones that failed, in call order |
| StorageService.StoreData | web_scraping/services/storage_service.py:100-197 | the config is the custom one, else the data type's, else cloud_sql with cache and vector search; the batch is processed first, and a failed processing is returned without calling any backend; otherwise the backends are called in store_data's order and the result is built from their outcomes |
| StorageService.AttemptsSpec | web_scraping/services/storage_service.py:129-178 | attempts come in the order cloud_sql, firestore, vector_search, cache, each exactly when its mode or flag and manager call for it |
| StorageService.SuccessfulOrdered | web_scraping/services/storage_service.py:126-178 | stored locations keep the strict call order, so there are no duplicates |
| StorageService.FailuresFrom | web_scraping/services/storage_service.py:136-170 | every reported error is that of an attempted backend that failed |
| StorageService.FailuresHas | web_scraping/services/storage_service.py:136-170 | every failed attempt that reports an error has it listed |
| StorageService.StoreOutcomeSpec | web_scraping/services/storage_service.py:126-189 | locations are in call order, success iff some location, locations exactly the successful attempts, errors only from failed attempts, and `both` reports no primary error |
| StorageService.ProcessingFailureStoresNothing | web_scraping/services/storage_service.py:119-124 | a failed processing result is returned with its errors and no backend is called |
| StorageService.StoreDataAsWrittenStoresNothing | web_scraping/services/storage_service.py:113-124 | as written, every store_data call ends in "Data processing failed" with the processing errors, and no backend is called |
| StorageService.SavedBatchReachesBackends | web_scraping/services/storage_service.py:113-178 | with the save awaited, a batch the database accepted that neither crashes nor holds a datetime reaches the backends: the locations are exactly the successful attempts, and success iff there is one |
| StorageService.VectorFailureKeepsPrimary | web_scraping/services/storage_service.py:162-170 | a vector failure adds its error and no location, and the primary locations stay |
| StorageService.RetrieveData | web_scraping/services/storage_service.py:415-422 | a non-empty cache entry holding `data` is returned first when that value has a length; otherwise the eager `len()` in the debug line raises and the handler (442-444) answers `[]` |
| StorageService.RetrieveDataFallback | web_scraping/services/storage_service.py:424-440 | without a cache hit, an unknown type reads SQL, `both` reads SQL unless empty and then Firestore, and an unknown mode gives `[]` |
| Utils.Then | web_scraping/core/utils.py:165-196 | two validation steps succeed iff both do, and their errors are concatenated in order |
| Utils.ValidateJsonSchema | web_scraping/core/utils.py:161-203 | the errors of the schema's fields are collected in schema order; an empty schema gives none; a comparison TypeError stops the check |
| Utils.SchemaSpecFailurePersists | web_scraping/core/utils.py:198-203 | once a field raises a TypeError, the whole validation raises it |
| Utils.Message | web_scraping/core/utils.py:165-196 | every error message starts with its field name and ": " |
| Utils.TypeMismatches | web_scraping/core/utils.py:166-178 | the "Expected …" errors are a sub-list of the errors |
| Utils.TypeMismatchSpec | web_scraping/core/utils.py:166-178 | a known type tag yields exactly one "Expected …" error when the value has the wrong Python type and none otherwise (`number` accepts int, float and bool) |
| Utils.DictErrorsSplit | web_scraping/core/utils.py:166-189 | a dict schema's errors are its type error followed by errors of other kinds |
| Utils.MissingRequiredTwoErrors | web_scraping/core/utils.py:170-181 | a missing field under a typed, required schema yields exactly two errors: the type error and "Required field is missing or null" |
| Utils.LengthOnlyOnStrings | web_scraping/core/utils.py:183-189 | length bounds yield no error for a non-string value |
| Utils.MinLengthSpec | web_scraping/core/utils.py:183-186 | a string is reported too short iff its length is below `min_length` |
| Utils.NonListUnderListSchema | web_scraping/core/utils.py:191-196 | a non-list value under a list schema yields no errors |
| Utils.FieldErrorsNamed | web_scraping/core/utils.py:165-196 | every error of a field names the field or one of its items `field[i]` |
| Utils.ItemsErrorsNamed | web_scraping/core/utils.py:191-196 | every error of a list's items names an item `field[i]` |
| Utils.SchemasErrorsNamed | web_scraping/core/utils.py:193-196 | every error of one item against the schemas names that item |
| Utils.SchemaErrorsNamed | web_scraping/core/utils.py:198-203 | every error names one of the schema's fields or an item of one |
| Utils.AcquireSpec | web_scraping/core/utils.py:214-230 | on a clock that does not go back, acquire leaves no token, waits iff less than a token refilled, for `(1 - tokens)/rate`, which lies in [0, 1/rate] |
| Utils.RateLimiter.constructor | web_scraping/core/utils.py:208-212 | a new bucket holds one token, stamped at creation |
| Utils.RateLimiter.Acquire | web_scraping/core/utils.py:214-230 | the corrected acquire (see Findings): it refills the bucket for the elapsed time (at most one token), waits for the missing part of a token when short, spends one token and stamps the time the token is granted, where the source stamps the call time; the bucket stays within [0, 1] |
| Utils.AcquireAsWrittenDoubleGrant | web_scraping/core/utils.py:217-228 | as written, two callers at one request a second are both let through at the same instant |
| Utils.AcquireSpaced | web_scraping/core/utils.py:214-230 | the corrected acquire waits and empties the bucket as written, and stamps the end of the wait |
| Utils.AcquireSpacedSpacing | web_scraping/core/utils.py:214-230 | with the corrected stamp, consecutive grants are at least 1/rate apart |
| Utils.Backoff | web_scraping/core/utils.py:155-157 | the k waits are delay, 2·delay, 4·delay, … in order |
| Utils.FetchWithRetry | web_scraping/core/utils.py:137-159 | at most `max_retries` attempts; the body of the first 200 response is returned, all earlier attempts failed, waits double after each non-final failure, and None means every attempt failed |
| BaseScraper.NewScrapingConfig | web_scraping/core/base_scraper.py:22-40 | the given fields are kept; headers given are kept unchanged, and missing headers become the five defaults with `User-Agent` equal to `user_agent` |
| BaseScraper.DefaultScrapingConfig | web_scraping/core/base_scraper.py:22-30 | a config from a base URL alone waits 1.0 s, times out at 30 s, retries 3 times and sends the `MedellínBot/1.0` user agent |
| BaseScraper.NewScrapingResult | web_scraping/core/base_scraper.py:42-52 | a result without a timestamp gets the current time; the other fields are kept |
| BaseScraper.ItemErrors | web_scraping/core/base_scraper.py:130-135 | an item yields at most one error, and none iff it is a non-empty dict |
| BaseScraper.DataErrorsSpec | web_scraping/core/base_scraper.py:128-137 | one error per bad item, none iff every item is a non-empty dict |
| BaseScraper.ValidateData | web_scraping/core/base_scraper.py:123-137 | an empty batch gives `(False, ["No data to validate"])`; otherwise the errors are the per-item errors and the batch is valid iff there are none |
| BaseScraper.PageWaitsSpec | web_scraping/core/base_scraper.py:92-96 | one wait fewer than attempts, the j-th being delay·2^(j+1) |
| BaseScraper.FetchPage | web_scraping/core/base_scraper.py:83-98 | at most `max_retries` attempts; only client errors and timeouts are retried; a page is returned as soon as one arrives, otherwise the last error is raised |
| FirestoreConfig.CollectionName | web_scraping/config/firestore_config.py:92-95 | the collection addressed starts with the prefix and an underscore |
| FirestoreConfig.CollectionNameInjective | web_scraping/config/firestore_config.py:92-95 | distinct names address distinct collections |
| FirestoreConfig.ExpiresAtSpec | web_scraping/config/firestore_config.py:106-107 | a missing or zero TTL gives the default lifetime, and any other TTL that many days |
| FirestoreConfig.WithFieldsGet | web_scraping/config/firestore_config.py:103-109 | an added field takes its last added value, and any other key reads as before |
| FirestoreConfig.ReadAt | web_scraping/config/firestore_config.py:125-146 | a returned document is the stored one |
| FirestoreConfig.ReadAtSpec | web_scraping/config/firestore_config.py:133-140 | a document is expired iff `expires_at < now`; one that expires exactly now is still returned |
| FirestoreConfig.Unexpired | web_scraping/config/firestore_config.py:250-271 | the documents kept by the clean-up are exactly the unexpired ones, unchanged |
| FirestoreConfig.StampedFields | web_scraping/config/firestore_config.py:103-109 | a stamped document carries the stamp's fields, and every other field of the data |
| FirestoreConfig.MergeGet | web_scraping/config/firestore_config.py:148-174 | a merge write keeps the written fields and the stored document's other fields |
| FirestoreConfig.CacheDocFields | web_scraping/config/firestore_config.py:155-165 | a cache document carries its key and its expiry, and the data's other fields |
| FirestoreConfig.CacheRoundTrip | web_scraping/config/firestore_config.py:148-197 | a cache entry saved and read back before it expires is found, with its key, its expiry and the saved data |
| FirestoreConfig.FirestoreManager.constructor | web_scraping/config/firestore_config.py:59-63 | a manager addresses its prefix over the given store |
| FirestoreConfig.FirestoreManager.SaveTemporaryData | web_scraping/config/firestore_config.py:97-123 | given the id the database generates (one the collection does not hold), a successful save stores the stamped document under it, keeps every other document and returns the id; a failed one returns None and changes nothing |
| FirestoreConfig.FirestoreManager.SaveMerged | web_scraping/config/firestore_config.py:148-174 | a merge write stores the merged document iff the write succeeds |
| FirestoreConfig.FirestoreManager.SaveCacheEntry | web_scraping/config/firestore_config.py:148-174 | the cache document under its key is merged with the stamped data iff the write succeeds |
| FirestoreConfig.FirestoreManager.SaveUserSession | web_scraping/config/firestore_config.py:199-225 | the session document under its id is merged with the stamped data iff the write succeeds |
| FirestoreConfig.FirestoreManager.GetFresh | web_scraping/config/firestore_config.py:125-146 | a missing document gives None; an expired one is deleted and gives None; otherwise it is returned and nothing changes |
| FirestoreConfig.FirestoreManager.GetTemporaryData | web_scraping/config/firestore_config.py:125-146 | `get_temporary_data` reads through the TTL check |
| FirestoreConfig.FirestoreManager.GetCacheEntry | web_scraping/config/firestore_config.py:176-197 | `get_cache_entry` reads through the TTL check |
| FirestoreConfig.FirestoreManager.GetUserSession | web_scraping/config/firestore_config.py:227-248 | `get_user_session` reads through the TTL check |
| FirestoreConfig.FirestoreManager.DeleteEach | web_scraping/config/firestore_config.py:259-263 | deleting the given documents one by one removes exactly them and counts them |
| FirestoreConfig.FirestoreManager.CleanupExpiredDocuments | web_scraping/config/firestore_config.py:250-271 | exactly the expired documents are deleted and their number returned |
| FirestoreConfig.FirestoreManager.CleanupAllExpired | web_scraping/config/firestore_config.py:273-286 | the three expiring collections are cleaned, each with its count |
| FirestoreConfig.CollectionNamesDistinct | web_scraping/config/firestore_config.py:273-283 | the three expiring collections and the embeddings collection are four different collections |
| FirestoreConfig.CleanedDocs | web_scraping/config/firestore_config.py:250-263 | cleaning one collection keeps only its unexpired documents and leaves every other collection as it was |
| FirestoreConfig.CleanedAllSpec | web_scraping/config/firestore_config.py:273-283 | temporary_data, cache and user_sessions keep only their unexpired documents, counts are per collection, and every other collection (vector_embeddings included) is untouched |
| FirestoreConfig.CleanupLeavesNothingExpired | web_scraping/config/firestore_config.py:250-271 | after a clean-up nothing reads as expired, nothing unexpired is lost, and kept plus deleted make up the collection |
| Settings.DefaultSourcesWellFormed | web_scraping/config/settings.py:83-111 | the default table holds exactly the five sources, each with an https base URL, a positive delay and a positive timeout |
| Settings.EntryWellFormed | web_scraping/config/settings.py:83-111 | any entry built with an https URL, a positive delay and a positive timeout is well formed |
| Settings.AppConfig.constructor | web_scraping/config/settings.py:71-111 | a new configuration holds the default source table |
| Settings.AppConfig.GetSourceConfig | web_scraping/config/settings.py:116-118 | a known source's settings, or `{}` for an unknown source |
| Settings.AppConfig.UpdateSourceConfig | web_scraping/config/settings.py:120-122 | afterwards the source reads back exactly the new settings and every other source is unchanged |
| Monitor.DefaultRules | web_scraping/monitoring/monitor.py:91-123 | a service starts with three rules |
| Monitor.EvaluateConditionSpec | web_scraping/monitoring/monitor.py:230-241 | `==` and `!=` are complementary, `>` and `<` never both hold, one of them holds unless the values are equal, and any other operator is false |
| Monitor.NewAlert | web_scraping/monitoring/monitor.py:205-215 | a new alert carries its rule, value and time and is unresolved |
| Monitor.CheckRuleSpec | web_scraping/monitoring/monitor.py:196-218 | a rule's turn appends one unresolved alert iff its condition holds and it has no open alert, and keeps at most one open alert per rule |
| Monitor.CheckRulesSpec | web_scraping/monitoring/monitor.py:193-222 | check_alerts keeps the alerts it found and only appends unresolved alerts of firing rules, keeping at most one open alert per rule |
| Monitor.CheckRulesCovers | web_scraping/monitoring/monitor.py:193-222 | afterwards every firing rule has an open alert |
| Monitor.CheckRulesNoChange | web_scraping/monitoring/monitor.py:203-204 | when every firing rule already has an open alert, nothing is added |
| Monitor.CheckRulesIdempotent | web_scraping/monitoring/monitor.py:193-222 | with unchanged metric values, a second check at any time adds nothing |
| Monitor.StubRaisesOnlyLowDataQuality | web_scraping/monitoring/monitor.py:224-228 | with every metric at 0.0, a new service raises exactly one open alert, `low_data_quality`, and repeated checks keep it the only one |
| Monitor.OpenCount | web_scraping/monitoring/monitor.py:280 | open alerts are at most all alerts, and none iff all are resolved |
| Monitor.MonitoringService.constructor | web_scraping/monitoring/monitor.py:73-81 | a new service holds the default rules, no alerts and empty counters |
| Monitor.MonitoringService.CheckAlerts | web_scraping/monitoring/monitor.py:193-222 | each rule in turn adds one alert when its condition holds and it has no unresolved alert yet; the rules, counters and gauges are unchanged |
| Monitor.MonitoringService.GetSystemHealth | web_scraping/monitoring/monitor.py:276-287 | reports uptime, the open alerts and all alerts, with active ≤ total |
| Monitor.FindOpen | web_scraping/monitoring/monitor.py:203-204 | finds an open alert of the rule iff one exists |
| Monitor.ExitRecord | web_scraping/monitoring/monitor.py:341-358 | status `success` and no error event without an exception; otherwise `error` and one error event naming the exception type |
| Monitor.ScrapingMonitor.constructor | web_scraping/monitoring/monitor.py:327-331 | a new scrape monitor has no start time and status `running` |
| Monitor.ScrapingMonitor.Enter | web_scraping/monitoring/monitor.py:333-339 | entering notes the start time and sets the gauge to the stubbed count plus one, and changes nothing else |
| Monitor.ScrapingMonitor.Exit | web_scraping/monitoring/monitor.py:341-358 | leaving records the status, the request with its duration and the error event if any |
| Security.ValidateInputData | orchestrator/app.py:200-218 | a non-string always passes; a string passes iff no dangerous pattern matches |
| Security.KeptFields | orchestrator/app.py:227-232 | exactly the pairs whose key is not sensitive are kept, in order |
| Security.Sanitize | orchestrator/app.py:226-236 | scalars are unchanged, lists keep their length, and dicts keep exactly their non-sensitive keys |
| Security.SanitizeRemovesSensitive | orchestrator/app.py:220-238 | no dict at any depth of the result has a sensitive key |
| Security.KeptFieldsClean | orchestrator/app.py:227-232 | a dict without sensitive keys keeps all its pairs |
| Security.SanitizeKeepsClean | orchestrator/app.py:220-238 | a value without sensitive keys comes back unchanged |
| Security.SanitizeIdempotent | orchestrator/app.py:220-238 | sanitising twice is sanitising once |
| Security.SanitizeKeepsOrdinaryKey | orchestrator/app.py:227-232 | a non-sensitive key survives with its value sanitised |
| Security.Recent | orchestrator/app.py:288-291 | exactly the times later than the window start are kept |
| Security.AdmitSpec | orchestrator/app.py:285-299 | a request is refused iff the in-window count has reached the limit, and recorded otherwise; the per-client bound holds, kept times are in the window, and other clients are untouched |
| Security.SlidingWindowLimiter.constructor | orchestrator/app.py:243-247 | a new limiter has its window and limit and an empty store |
| Security.SlidingWindowLimiter.IsRateLimited | orchestrator/app.py:285-299 | the client's request times are pruned to the window; the request is refused when the limit is already reached and recorded otherwise; no client ever holds more than the limit |
| Security.ThirdRequestRefused | webhook/app.py:255-272 | with a limit of two, two requests inside one window pass and the third is refused |
| Orchestrator.NewRateLimiter | orchestrator/app.py:243-247 | the limiter has the 3600 s window, the 100-request limit and an empty store |
| Orchestrator.SanitizeResponse | orchestrator/app.py:220-238 | no key in {password, token, secret, key, authorization, jwt}, in any letter case, at any depth; clean values are unchanged |
| Orchestrator.JwtNeverLeaks | orchestrator/app.py:224-231 | a `JWT` key never leaves the orchestrator |
| Orchestrator.FieldsCheckObject | orchestrator/app.py:543-546 | the field loop passes a dict iff it has all the required keys |
| Orchestrator.IntentParseSpec | orchestrator/app.py:533-556 | a reply is accepted iff it is a JSON object with intent, confidence, reasoning and detected_keywords and a numeric confidence in [0, 1], and is then returned unchanged; unparseable JSON is refused |
| Orchestrator.MissingIntentFirst | orchestrator/app.py:543-546 | an object without `intent` is refused for that field first |
| Orchestrator.ParseIntentResponse | orchestrator/app.py:533-556 | a reply that is not JSON, lacks one of the four fields, is not a dict, or has a non-numeric confidence or one outside [0, 1] is rejected with the matching error; any other is returned as parsed |
| Orchestrator.FallbackIntent | orchestrator/app.py:521-531 | the fallback is `clarificacion` with confidence 0.0 and no keywords |
| Orchestrator.ClassifyIntent | orchestrator/app.py:496-531 | on success, a confidence below the threshold turns the intent into `clarificacion` and keeps the confidence; any failure gives `clarificacion` with confidence 0.0 |
| Orchestrator.PySuffix | orchestrator/app.py:584 | Python's `s[start:]` for negative and out-of-range starts |
| Orchestrator.ZeroHistoryKeepsEverything | orchestrator/app.py:583-584 | as written, a history limit of 0 keeps every stored message |
| Orchestrator.KeepLast | orchestrator/app.py:583-584 | exactly the last max(limit, 0) messages are kept |
| Orchestrator.KeepLastAgrees | orchestrator/app.py:583-584 | for a positive limit this is what the source's slice keeps |
| Orchestrator.GetConversationContext | orchestrator/app.py:564-614 | with the corrected truncation (see Findings): the current message comes last, no session or no message list gives the empty context, and at most max(limit, 0) + 1 messages are returned; the source keeps every stored message when the limit is 0 |
| Orchestrator.ContextKeepsMostRecent | orchestrator/app.py:581-592 | the stored messages kept are the most recent ones, in order, min(count, limit) of them |
| Orchestrator.AgentUrlByFamily | orchestrator/app.py:730-748 | each intent goes to the agent of its prefix, and clarification, escalation and greetings are not routed |
| Orchestrator.UnknownIntentNotRouted | orchestrator/app.py:756-821 | an intent with no agent is answered the same whatever the agent would have done, with an error naming the intent: "Routing error" for a list or dict (the lookup raises), "No agent available for intent" for any other value |
| Orchestrator.NonStringIntentAnswered | orchestrator/app.py:977-1010 | a confident classification whose intent is not a string is routed, gets the routing error naming it ("Routing error" for a list or dict, "No agent available for intent" otherwise), and that answer carries the metadata with the intent |
| Orchestrator.GeneralInteraction | orchestrator/app.py:1105-1116 | the reply has exactly two fields: the greeting text for the intent under "response" and the fixed list of suggested actions under "suggested_actions" |
| Orchestrator.UnsureGoesToClarification | orchestrator/app.py:984-990 | a failed or low-confidence classification ends in the clarification handler |
| Orchestrator.ProcessRequest | orchestrator/app.py:953-1034 | a rejected message gets the security error without classification; otherwise the answer is the valid-input answer: the chosen handler's dict with the metadata naming the intent, whatever value the intent is, or the sanitised internal error when that answer is not a dict |
| Orchestrator.GreetingAnsweredInPlace | orchestrator/app.py:984-1000 | a confident greeting, farewell or thanks is answered from the fixed table |
| Orchestrator.GreetingHandled | orchestrator/app.py:990-995 | the greetings go to the general-interaction handler |
| Webhook.NewRateLimitStore | webhook/app.py:89-90 | the webhook's limiter has the 3600 s window, the 100-request limit and an empty store |
| Webhook.SanitizeResponse | webhook/app.py:189-207 | no key in {password, token, secret, key, authorization} at any depth; clean values are unchanged |
| Webhook.JwtPassesWebhook | webhook/app.py:193 | `jwt` is not on the webhook's list, so a jwt entry passes |
| Webhook.ValidateTelegramUpdate | webhook/app.py:309-332 | a falsy payload is "Empty payload", a truthy dict without `message` is "Missing message field", and an accepted update is a dict with a message |
| Webhook.AcceptedHasChat | webhook/app.py:320-330 | an accepted update has a truthy chat id, on the whitelist when one is configured, and a text, if truthy, that no dangerous pattern matches |
| Webhook.ChatCheckedOutcome | webhook/app.py:323-332 | given a truthy chat id: off the whitelist is refused naming the id, then truthy dangerous text is refused as a security threat, and the update is accepted iff it is whitelisted with clean or empty text |
| Webhook.EmptyDictIsEmptyPayload | webhook/app.py:311-312 | `{}` is refused as "Empty payload" |
| Webhook.NoChatMeansMissingChatId | webhook/app.py:317-321 | a message without a chat is refused as "Missing chat ID" |
| Webhook.CreateSessionId | webhook/app.py:334-338 | `tg:` and 16 lowercase hex digits, 19 characters in all |
| Tramites.Cleaned | agents/tramites/app.py:289 | only word and space characters remain, each taken from the input |
| Tramites.KeptTerms | agents/tramites/app.py:292-293 | exactly the words that are not stop words and are longer than two characters are kept |
| Tramites.KeptTermsCounts | agents/tramites/app.py:293 | a kept word occurs as many times as in the input, any other word not at all |
| Tramites.KeptTermsSingle | agents/tramites/app.py:293 | one word alone is kept iff it is worth searching for |
| Tramites.KeptTermsAppend | agents/tramites/app.py:293 | the filter distributes over concatenation, so the kept words stay in message order |
| Tramites.ExtractSearchTermsSpec | agents/tramites/app.py:283-295 | the terms are the kept words of the split cleaned lowercase message, in order with repetitions, each made only of word characters, and every kept word is among them |
| Tramites.LeadingCapitals | agents/tramites/app.py:301 | the count of leading capitals is maximal |
| Tramites.CodeBodySpec | agents/tramites/app.py:301 | a code is one or more capitals, one hyphen, then one or more digits |
| Tramites.NoHyphenNoCode | agents/tramites/app.py:297-302 | a term without a hyphen is never a código |
| Tramites.NoSearchTermIsCode | agents/tramites/app.py:229-237 | no extracted term is a código, so the código lookup is never taken from process_request |
| Tramites.CatalogueCodeRecognised | agents/tramites/app.py:297-302 | `RUT-1` is recognised as a código |
| Tramites.SearchScore | agents/tramites/app.py:228-241 | the score is 0.95 exactly for a single-código hit, 0.8 exactly for a keyword hit, and 0.0 exactly when nothing is found |
| Tramites.MessageSearchIsKeywordSearch | agents/tramites/app.py:226-241 | from a message, the search is always the keyword search |
| Tramites.AlternativesOf | agents/tramites/app.py:247-258 | the alternatives are `results[1:]` projected in order, or none for at most one result |
| Tramites.Alternatives | agents/tramites/app.py:248-256 | one alternative per hit after the best, in hit order, each with that hit's code, title and similarity reason; none for a single hit |
| Tramites.MentionedCategories | agents/tramites/app.py:435-438 | at most one entry per category |
| Tramites.MentionedCategoriesSpec | agents/tramites/app.py:423-440 | the categories are in table order, and are exactly those with a keyword in the message |
| Tramites.MentionsAny | agents/tramites/app.py:437 | true iff some keyword is a substring of the text |
| Tramites.CategoriesMentioned | agents/tramites/app.py:435-440 | the loop returns exactly the mentioned categories |
| Tramites.GetRelevantCategories | agents/tramites/app.py:423-440 | the categories mentioned in the lowercased message |
| Tramites.CategoryAlternatives | agents/tramites/app.py:469-475 | one alternative per result, in order, with the category's reason |
| Tramites.FallbackCategoryResponse | agents/tramites/app.py:467-487 | the category reply with score 0.6 and one alternative per trámite, in order, with the category's reason |
| Tramites.CategoryReplySpec | agents/tramites/app.py:477-487 | match score 0.6, no tramite, and one alternative per result |
| Tramites.NoResultsOf | agents/tramites/app.py:396-407 | when no mentioned category has results, the fixed no-results reply |
| Tramites.NoResultsPicksFirst | agents/tramites/app.py:390-394 | the first category with results answers |
| Tramites.HandleNoResults | agents/tramites/app.py:382-407 | the reply is the category reply for the first category mentioned in the lower-cased message that has trámites, or the fixed no-results reply when none has |
| Tramites.FirstCategoryReply | agents/tramites/app.py:388-407 | the loop over the mentioned categories stops at the first one with trámites and answers for it; past all of them it gives the no-results reply |
| Tramites.ProcessRequest | agents/tramites/app.py:220-281 | a hit gives the reply for the best trámite with the other hits as "alternativas", no hit gives the no-results reply; either gets the metadata with the search terms; a reply for the best hit that is not a dict gives the internal-error reply |
| Tramites.SearchAndReply | agents/tramites/app.py:225-262 | the search over the extracted terms and the reply built from its hits, before the metadata is added |
| Tramites.FoundAnswerListsAlternatives | agents/tramites/app.py:243-269 | a found answer carries the alternatives and the metadata with the search terms |
| Tramites.NothingFoundAnswer | agents/tramites/app.py:260-269 | with nothing found by keyword or category, the fixed no-results reply with metadata |
| PerformanceMonitoring.Last | monitoring/performance-monitoring.py:132-140 | Python's `s[-n:]`: the last min(len, n) entries |
| PerformanceMonitoring.BoundedAppend | monitoring/performance-monitoring.py:60 | a bounded deque append: length min(len+1, cap), the newest entries, ending with the new one |
| PerformanceMonitoring.BoundedAppendKeepsRecent | monitoring/performance-monitoring.py:188 | below the bound the entry is appended; at the bound the oldest is evicted |
| PerformanceMonitoring.AvailabilityAboveHundred | monitoring/performance-monitoring.py:135-137 | as written, availability is at least 150% for any non-empty history of at most 1440 entries |
| PerformanceMonitoring.Availability | monitoring/performance-monitoring.py:135-137 | the corrected availability lies in [0, 100], is 100 iff no failure and 0 iff every entry failed |
| PerformanceMonitoring.Failures | monitoring/performance-monitoring.py:132 | failures are at most the entries |
| PerformanceMonitoring.DerivedMetricsBounds | monitoring/performance-monitoring.py:119-146 | error rate and availability in [0, 100], throughput in [0, 60]; empty history gives the current health's metrics; error rate 0 iff no recent failure; throughput is the entries among the last 60 |
| PerformanceMonitoring.AsDictHasNoHealth | monitoring/performance-monitoring.py:25-35 | a recorded entry has no `is_healthy` key |
| PerformanceMonitoring.RecordedHistoryRaises | monitoring/performance-monitoring.py:132 | as written, any non-empty recorded history makes the derived metrics raise KeyError |
| PerformanceMonitoring.BreachedAmongSpec | monitoring/performance-monitoring.py:148-172 | a check is listed iff it is among those checked and breaches its threshold |
| PerformanceMonitoring.Texts | monitoring/performance-monitoring.py:150-170 | one message per breach, in order |
| PerformanceMonitoring.BreachedInOrder | monitoring/performance-monitoring.py:150-170 | the breaches are listed in the order response time, CPU, memory, error rate, availability, each iff its threshold is crossed |
| PerformanceMonitoring.EveryBreachChecked | monitoring/performance-monitoring.py:148-172 | every kind of threshold is among those check_alerts examines |
| PerformanceMonitoring.CheckAlertsTexts | monitoring/performance-monitoring.py:148-172 | check_alerts returns the message of each breached threshold, in check order |
| PerformanceMonitoring.CheckAlertsSpec | monitoring/performance-monitoring.py:148-172 | one message per breached threshold, in the fixed order response time, CPU, memory, error rate, availability |
| PerformanceMonitoring.AlertSeverities | monitoring/performance-monitoring.py:191-212 | each alert's severity is that of its kind: availability critical, response time and error rate high, CPU and memory medium |
| PerformanceMonitoring.SlowResponseSeverity | monitoring/performance-monitoring.py:203-212 | a response-time alert is `high` |
| PerformanceMonitoring.HighCpuSeverity | monitoring/performance-monitoring.py:203-212 | a CPU alert is `medium` |
| PerformanceMonitoring.HighMemorySeverity | monitoring/performance-monitoring.py:203-212 | a memory alert is `medium` |
| PerformanceMonitoring.HighErrorRateSeverity | monitoring/performance-monitoring.py:203-212 | an error-rate alert is `high` |
| PerformanceMonitoring.LowAvailabilitySeverity | monitoring/performance-monitoring.py:203-212 | an availability alert is `critical` |
| PerformanceMonitoring.TrendDirection | monitoring/performance-monitoring.py:273-290 | with at least 120 entries: improving iff the last hour's mean is lower, degrading iff higher, stable iff equal; a zero previous mean raises |
| PerformanceMonitoring.NoTrendBelowTwoHours | monitoring/performance-monitoring.py:277 | fewer than 120 entries give no trend |
| PerformanceMonitoring.AlertEntries | monitoring/performance-monitoring.py:192-200 | one entry per alert, with its timestamp, service, text and severity |
| PerformanceMonitoring.PerformanceMonitor.constructor | monitoring/performance-monitoring.py:48-63 | six services with empty histories and no alerts |
| PerformanceMonitoring.PerformanceMonitor.LogAlerts | monitoring/performance-monitoring.py:192-201 | one logged entry per raised alert, in order, stamped with the time and service and carrying the severity its text implies; the histories are untouched |
| PerformanceMonitoring.PerformanceMonitor.RecordMetrics | monitoring/performance-monitoring.py:174-201 | the service's history gets the entry with the oldest evicted at 1440, and the alerts gain one entry per alert message; histories stay bounded |
| PerformanceMonitoring.PerformanceMonitor.ObserveService | monitoring/performance-monitoring.py:366-369 | one round for a service with the corrected derived metrics (see Findings): metrics derived from its history, then recorded; an unknown service changes neither the histories nor the alerts; as written, any non-empty history raises at line 132 and nothing is recorded |

## Left out

- I/O: HTTP (Telegram, the agents and health endpoints), Firestore, Redis, Cloud SQL, Vertex AI and OpenAI, Secret Manager, Prometheus and psutil. Each write or read is an outcome or value parameter, and the Firestore store is a map inside the manager.
- The Redis paths of both rate limiters, and their fall-back to memory on a Redis error. Only the in-memory limiter is modelled.
- The dangerous-input regular expressions are parameters (predicates). So are `strptime` in `parse_date_string`, MD5, SHA-256 and `json.loads`. Each is a function parameter. `json.dumps(..., sort_keys=True)` in the duplicate check is modelled by its canonical form (`Json.Canonical`) and its datetime error (`Json.Dumpable`); its exact spelling of numbers and strings is not.
- Tramites.Cleaned: `\w` is exact only up to U+00FF; wider word characters are a parameter. `Text.Lower` and `Text.Upper` are exact only for ASCII and Latin-1.
- Floats are Dafny reals with no rounding. `round(…, 3)` and `:.1f`/`:.2f` formatting are parameters.
- Concurrency: asyncio locks and `gather`, the background monitoring and session-clean-up threads, and the monitoring loop's hourly report timing.
- The answers composed by the LLM (the tramite reply, the category reply, the clarification and escalation replies) and the similarity-reason wording. All are parameters. The fallback tramite reply's formatting of requirements and location is not part of this model.
- `generate_performance_report`'s summary statistics (means, p95, maxima), the alert summary and the report files. Only the trend rule is modelled.
- `_handle_no_results`'s exception path. The model's category search and replies cannot raise.
- PerformanceMonitoring.PerformanceMonitor.RecordMetrics: an unknown service raises KeyError in the source. Here it returns `known == false` and changes nothing.
- The ScrapingMonitor's Prometheus gauges beyond the active-scrapers count. `update_data_quality` is not modelled.
- Orchestrator.ProcessRequest: does not model the session update after the response. `update_session_context` is not part of this model.
- `web_scraping/core/database.py` (the SQL batch save `db_manager.save_scraped_data`) is not part of this model. What awaiting the batch save reports is the parameter `saved` of DataProcessor.ProcessScrapedData; the code as written never reaches it (see Findings).
- FirestoreConfig.Merge: a written top-level field replaces the stored one whole, while Firestore's `set(..., merge=True)` merges a map-valued field into a stored map key by key. FirestoreConfig.MergeGet, FirestoreConfig.CacheRoundTrip and the SaveMerged, SaveCacheEntry and SaveUserSession methods state the values only for writes where no written field and its stored counterpart are both maps. No caller here writes such a field: the cache writers write `data` as a list (`web_scraping/services/storage_service.py:366-381`, `web_scraping/services/data_processor.py:355-367`), and nothing calls `save_user_session`.
- Tramites.IsCodigoFormat: `\d` is read as the ASCII digits 0-9, while Python's `\d` also matches other Unicode decimal digits. The check is only applied to search terms, which never contain a hyphen (`Tramites.NoSearchTermIsCode`), so it is false on every term it is given either way.
- Utils.RateLimiter.Acquire: models the corrected stamp (the end of the wait), not the call time the source stamps at `web_scraping/core/utils.py:222`. The as-written step is `Utils.AcquireStep`, and `Utils.AcquireAsWrittenDoubleGrant` shows what it lets through (see Findings).
- Orchestrator.GetConversationContext: models the corrected truncation `Orchestrator.KeepLast`, not `messages[-max_history:]` (`Orchestrator.TruncateAsWritten`). The two agree for every positive limit (`Orchestrator.KeepLastAgrees`), and the default is 50. At 0 the source keeps all stored messages, and at a negative limit it drops the first ones, so its context is not bounded by max(limit, 0) + 1 there.
- PerformanceMonitoring.PerformanceMonitor.ObserveService: models the corrected derived metrics `PerformanceMonitoring.DerivedMetrics`. As written (`PerformanceMonitoring.DerivedAsWritten`), the round for a service with any recorded history raises KeyError at `monitoring/performance-monitoring.py:132`, and nothing more is recorded for it (`PerformanceMonitoring.RecordedHistoryRaises`).
- `criticality` is carried in `StorageConfig` but never read, as in the source.

## Findings

| source | as written | input that shows it | evidently intended | confidence | as-written member | corrected member |
|---|---|---|---|---|---|---|
| web_scraping/core/utils.py:217-228 | `last_update` is stamped with the call time before the wait, so the time a caller spends sleeping refills the bucket for the next caller | rate 1/s, empty bucket: a call at 0 sleeps until 1; a call arriving at 1 refills a full token and passes at once, so two grants happen at 1 | stamp the bucket when the token is granted, so grants are at least 1/rate apart | not executed | Utils.AcquireAsWrittenDoubleGrant | Utils.AcquireSpaced |
| orchestrator/app.py:583-584 | `messages[-self.max_history:]` with `max_history == 0` is `messages[0:]`, the whole list | MAX_MESSAGE_HISTORY=0 with two stored messages keeps both | keep no stored message when the limit is 0 | not executed | Orchestrator.ZeroHistoryKeepsEverything | Orchestrator.KeepLast |
| monitoring/performance-monitoring.py:136-137 | availability is `(3600 - failures) / min(len, 3600) * 100` | unreachable as written, since line 132 raises first on any non-empty history (next row); once line 132 is corrected, a history of 1440 healthy entries gives 250%, and any non-empty history of at most 1440 entries gives at least 150% | successes over the window: `(window - failures) / window * 100`, within [0, 100] | not executed | PerformanceMonitoring.AvailabilityAboveHundred | PerformanceMonitoring.Availability |
| web_scraping/services/data_processor.py:271-284 | `_save_to_database` calls `asyncio.get_event_loop().run_until_complete(save_batch())` from inside the coroutine `process_scraped_data`, whose every caller awaits it, so the loop is already running; `run_until_complete` then raises RuntimeError, and the handler answers False | any batch that passes validation: `success` is False, and store_data answers "Data processing failed" without calling a backend | await the batch save inside the coroutine, so that `success` is what the save reports | not executed | StorageService.StoreDataAsWrittenStoresNothing | StorageService.SavedBatchReachesBackends |
| monitoring/performance-monitoring.py:132 | the derived metrics read `m['is_healthy']` from history entries. Line 188 stores the entries as `asdict(PerformanceMetrics)`, which has no such key | after the first round every service has one recorded entry; on the second round the first service raises KeyError, the exception leaves the whole round (line 379), so no later service is checked either, and every later round fails the same way: the loop stops recording anything after its first round | judge each recorded entry by its status code, as `is_healthy` was computed (`status_code == 200`) | not executed | PerformanceMonitoring.RecordedHistoryRaises | PerformanceMonitoring.DerivedMetricsBounds |
