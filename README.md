# Transaction dashboard backend — a Dafny model

This project models the backend of a retail-transactions dashboard. The backend stores sales transactions in a document collection and serves four kinds of request:

- a filtered, sorted and paginated listing;
- the distinct regions and categories for the filter drop-downs;
- summary statistics;
- create, update and delete of single transactions.

Read answers are cached in an in-process key/value cache. A successful write empties the whole cache. Two maintenance scripts also act on the collection:

- the seeder clears the collection, maps every CSV row to a document and inserts the documents in batches of 1000;
- the reducer keeps only the 5000 most recent transactions.

## Modules

- `TransactionModel` (`transaction.dfy`)
  - The transaction schema: 27 paths, seven of them required, and `currency` defaulting to "INR".
  - Validation, whose error names exactly the missing required paths.
  - Partial updates.
- `RecordStore` (`store.dfy`)
  - The collection as a `class Store` with a map from ids to records and a next-id counter.
  - The fragment of the query language the service produces, with its matching semantics.
  - The store calls the code makes: count, estimated count, find with sort/skip/limit, distinct, aggregate, save, update by id, delete by id, delete all, ordered insert-many, select the n most recent, delete-not-in.
- `QueryParams` (`query.dfy`): parsed query strings; a value is a string or a list of strings.
- `TransactionService` (`service.dfy`)
  - The translation of query parameters into filter, sort and window.
  - The listing with its pagination metadata.
  - The stats with their zero fallback.
- `CacheKey` (`cachekey.dfy`): the listing cache key, which is the JSON text of the query with its keys sorted. It is proved canonical: two queries get the same key exactly when they hold the same parameters.
- `ResponseCache` (`cache.dfy`): the cache, with get, set and flush.
- `TransactionController` (`controller.dfy`)
  - The six HTTP handlers as methods of a `Controller`.
  - Its invariant `Coherent()` says every cached entry is exactly what its handler would compute against the current collection. While every write goes through the handlers, cache hits are therefore indistinguishable from recomputation. The seeder and the reducer write to the collection directly and flush nothing; after they run, cached answers may be stale.
- `Seed` (`seed.dfy`)
  - Row mapping: header aliases, safe number and date parsing, tag splitting.
  - The batched import loop. Proved: the batches it writes are the 1000-chunking of the mapped rows. It stops at the first batch that fails validation, and the batches written before that batch stay behind.
- `Retention` (`retention.dfy`): the reducer, proved to keep exactly the `min(5000, n)` records with the latest dates.
- `Text` (`text.dfy`): the string functions the code relies on: code-unit ordering, `split`, `trim`, and JSON string quoting.
- `Wrappers` (`wrappers.dfy`): `Option` and `Result`.

## Model

| member | source | states |
|---|---|---|
| TransactionModel.ValidateSpec | src/models/Transaction.js:3-38 | validation fails iff some required path (lines 5, 6, 7, 14, 15, 21, 29) is unsupplied, with an empty string counting as missing; the error lists exactly the missing paths; an accepted record is storable, has currency defaulted to "INR" and tags defaulted to [], and keeps every supplied field |
| TransactionModel.Validate | src/models/Transaction.js:3-38 | schema validation on save: the missing required paths in schema order, or the record with its defaults; its contract is `ValidateSpec` |
| TransactionModel.ValidateToDraft | src/models/Transaction.js:3-38 | every storable record round-trips through validation of its own draft |
| TransactionModel.ValidationMessage | src/controllers/transactionController.js:71 | the error text of a failed validation: it starts with "Transaction validation failed: " and has nothing after that prefix iff no path is missing |
| TransactionModel.RequiredOnlyAccepted | src/models/Transaction.js:3-38 | the seven required paths alone are enough; currency is then "INR" and the optional paths are absent |
| TransactionModel.MissingRequiredRejected | src/models/Transaction.js:5-29 | leaving out any one required path is rejected, and the error names it |
| TransactionModel.ApplyPatch | src/services/transactionService.js:113-115 | the updated record is the old record overlaid, path by path, with the paths the patch gives |
| TransactionModel.ToDraftInjective | src/models/Transaction.js:3-38 | records and their drafts correspond one to one |
| TransactionModel.PatchLaws | src/services/transactionService.js:113-115 | an empty patch changes nothing; applying a patch twice equals applying it once |
| QueryParams.LookupSpec | src/services/transactionService.js:4-19 | a parameter lookup finds a value iff some parameter has that name, and the value found is one of the query's pairs |
| QueryParams.LookupFinds | src/services/transactionService.js:4-19 | in an object, the pair under a key is what a lookup of that key returns |
| QueryParams.LookupIgnoresOrder | src/services/transactionService.js:4-19 | lookups depend only on the set of pairs, not their order |
| QueryParams.Lookup | src/services/transactionService.js:4-19 | `query[key]`, or none when the key is absent; its contract is `LookupSpec` |
| RecordStore.KeyCountZero | src/services/transactionService.js:86 | the filter has no keys iff it is the empty filter |
| RecordStore.NoFilterMatchesAll | src/services/transactionService.js:86-87 | the empty filter matches every record |
| RecordStore.NoFilterCountsAll | src/services/transactionService.js:86-87 | the number of records matching the empty filter is the collection size, so the estimated count is the true total |
| RecordStore.Matches | src/services/transactionService.js:21-66 | a record satisfies a filter when the `$or` branch, every `$in` clause and every range holds; its relation to the query is `FilterSemantics` |
| RecordStore.Page | src/services/transactionService.js:77-81 | a window holds min(limit, n - skip) records, or none when skip is past the end, taken in order from position skip |
| RecordStore.PageMatches | src/services/transactionService.js:77-81 | every record of a found window matches the filter |
| RecordStore.Without | src/services/transactionService.js:121-134 | removing position k shortens a listing by one and shifts the later positions down |
| RecordStore.WithoutOne | src/services/transactionService.js:121-134 | removing position k removes exactly one occurrence of that id from the multiset |
| RecordStore.SumWithout | src/services/transactionService.js:126-127 | a sum splits into the removed record's value plus the sum of the rest |
| RecordStore.SumIgnoresOrder | src/services/transactionService.js:126-127 | `$sum` over two orderings of the same ids gives the same total |
| RecordStore.DistinctOnce | src/services/transactionService.js:121-134 | in a duplicate-free listing, each id occurs once or not at all |
| RecordStore.ListingsPermute | src/services/transactionService.js:121-134 | two listings of the same key set are permutations of each other |
| RecordStore.LatestIn | reduceData.js:16 | a non-empty set of records has one with the latest date |
| RecordStore.TopExists | reduceData.js:16 | for any n up to the set's size, a selection of n records exists that no unselected record postdates |
| RecordStore.MostRecentExists | reduceData.js:16 | a most-recent selection of any size up to the collection size exists |
| RecordStore.NumberedSpec | seed.js:71 | numbering a batch from `start` gives ids start..start+len, the i-th holding the i-th document |
| RecordStore.AllValidCons | seed.js:71 | a batch is all valid iff its head and its tail are |
| RecordStore.Records | seed.js:71 | a valid batch yields one record per draft |
| RecordStore.RecordsSpec | seed.js:71 | the i-th record of a valid batch is the validated i-th draft |
| RecordStore.FirstInvalid | seed.js:71 | there is no error iff every draft is valid; otherwise the error is the validation error of a draft all of whose predecessors are valid, that is, of the first invalid draft |
| RecordStore.ListIds | reduceData.js:16-17 | lists each id of a set exactly once |
| RecordStore.Store.constructor | src/models/Transaction.js:43 | a new collection is empty |
| RecordStore.Store.CountDocuments | src/services/transactionService.js:89 | the number of records matching the filter |
| RecordStore.Store.EstimatedDocumentCount | src/services/transactionService.js:87 | the number of records in the collection |
| RecordStore.Store.Find | src/services/transactionService.js:77-81 | a window of matching records, at skip and at most limit long, in some order of all matching records |
| RecordStore.Store.Distinct | src/services/transactionService.js:103-106 | exactly the values the path takes in the collection |
| RecordStore.Store.Aggregate | src/services/transactionService.js:122-131 | no group for an empty collection; otherwise one group document with `_id: null`, summed quantity and total amount (a missing amount counts 0), and a zero discount total |
| RecordStore.Store.Save | src/services/transactionService.js:108-111 | fails with the validation message, or with the store's error, and changes nothing then; otherwise stores the validated record under a fresh id |
| RecordStore.Store.FindByIdAndUpdate | src/services/transactionService.js:113-115 | returns the patched record and stores it iff the id exists; otherwise nothing changes |
| RecordStore.Store.FindByIdAndDelete | src/services/transactionService.js:117-119 | returns and removes the record iff the id exists; otherwise nothing changes |
| RecordStore.Store.Clear | seed.js:57 | the collection becomes empty |
| RecordStore.Store.InsertMany | seed.js:71 | all drafts valid and no store error: appends them under consecutive fresh ids; an invalid draft: fails with the first invalid draft's message and writes nothing; refused by the database midway: fails with its message and keeps the documents written before the refusal, under consecutive fresh ids |
| RecordStore.Store.MostRecentIds | reduceData.js:16-17 | the ids of min(n, size) records that no unselected record postdates |
| RecordStore.Store.DeleteNotIn | reduceData.js:20 | keeps exactly the records whose ids are listed, and reports how many it removed |
| RecordStore.LessKeys | reduceData.js:20 | a sub-collection is no larger |
| TransactionService.Offset | src/services/transactionService.js:70 | skip is (page - 1) * perPage, never negative for valid paging |
| TransactionService.Translate | src/services/transactionService.js:3-74 | limit is perPage (default 10), page defaults to 1, skip = (page - 1) * limit; sort is on `date` unless sortBy is given; ascending exactly when sortOrder is "asc", descending otherwise |
| TransactionService.BuildFilter | src/services/transactionService.js:21-66 | the filter document built from the query; stated by `FilterClauses` and `FilterSemantics` |
| TransactionService.FilterClauses | src/services/transactionService.js:24-66 | each clause appears exactly when its parameter is truthy (a list parameter also needs a non-empty list); a range appears when either of its bounds is given |
| TransactionService.PropertyName | src/services/transactionService.js:74 | the sort key a `sortBy` value names: the string itself, a one-element list's element, or the empty string for an empty list |
| TransactionService.BuildSort | src/services/transactionService.js:73-74 | sorts on `date` when sortBy is absent, otherwise on the key it names; ascending exactly when sortOrder is "asc", descending otherwise |
| TransactionService.SearchMatches | src/services/transactionService.js:24-30 | a truthy search admits a record iff it matches case-insensitively in customer name, phone number or product name |
| TransactionService.FilterSemantics | src/services/transactionService.js:21-66 | a record matches the built filter iff it is admitted: search, `$in` on gender/region/category/paymentMethod, any listed tag, and every given price or date bound |
| TransactionService.FilterEmptiness | src/services/transactionService.js:21-66 | the filter is empty iff no filtering parameter is truthy |
| TransactionService.OneSidedRanges | src/services/transactionService.js:55-66 | a single price or date bound gives a one-sided range |
| TransactionService.TranslateIgnoresOrder | src/services/transactionService.js:3-74 | queries with the same parameters in different orders translate alike |
| TransactionService.TwoGenders | src/services/transactionService.js:33-36 | a repeated gender parameter admits a record iff its gender is one of the values |
| TransactionService.DefaultWindow | src/services/transactionService.js:6-9 | with no paging or sort parameters: page 1, 10 per page, skip 0, newest first |
| TransactionService.CeilDiv | src/services/transactionService.js:98 | totalPages is the least count of full pages that covers total |
| TransactionService.PageHoldsRecords | src/services/transactionService.js:69-98 | a page starts inside the matching records iff its number is at most totalPages |
| TransactionService.ThirdOfThreePages | src/services/transactionService.js:69-98 | 23 matches at 10 per page: 3 pages; page 3 holds the last three records and page 4 is empty |
| TransactionService.GetTransactions | src/services/transactionService.js:3-100 | the data is the window the translation selects over the matching records; total counts exactly the matching records (the estimated count when the filter is empty); page and perPage are echoed |
| TransactionService.StatsDetermined | src/services/transactionService.js:121-134 | the stats of a collection are unique, whatever order the aggregation visits records in |
| TransactionService.GetStats | src/services/transactionService.js:121-134 | the totals of the collection with a zero discount total; the answer carries `_id: null` exactly when the collection is non-empty, and is the zero fallback object otherwise |
| ResponseCache.Cache.constructor | src/services/cacheService.js:4 | a new cache is empty |
| ResponseCache.Cache.Get | src/services/cacheService.js:7 | the value stored under the key, or none |
| ResponseCache.Cache.Set | src/services/cacheService.js:8 | stores or replaces only that key's entry, with its ttl |
| ResponseCache.Cache.Flush | src/services/cacheService.js:10 | removes every entry |
| CacheKey.Insert | src/controllers/transactionController.js:9 | inserting a pair with a new key into an ascending list keeps it ascending, adding exactly that pair |
| CacheKey.SortByKey | src/controllers/transactionController.js:9-12 | the sorted query is ascending by key and a permutation of the query |
| CacheKey.AscendingUnique | src/controllers/transactionController.js:9-12 | two ascending lists with the same pairs are equal |
| CacheKey.ListKey | src/controllers/transactionController.js:14 | every listing key starts with "transactions_" and is longer than that prefix |
| CacheKey.SortKeepsPairs | src/controllers/transactionController.js:9-12 | sorting keeps exactly the query's pairs |
| CacheKey.ListKeyIgnoresOrder | src/controllers/transactionController.js:8-14 | queries with the same parameters in any order get the same key |
| CacheKey.ListKeyIsolated | src/controllers/transactionController.js:14-110 | no listing key collides with the options key or the stats key |
| CacheKey.ItemsPrefixFree | src/controllers/transactionController.js:14 | the JSON text of a string array determines the array |
| CacheKey.ValuePrefixFree | src/controllers/transactionController.js:14 | the JSON text of a parameter value determines the value |
| CacheKey.MembersPrefixFree | src/controllers/transactionController.js:14 | the JSON text of an object's members determines the members |
| CacheKey.ListKeyDetermines | src/controllers/transactionController.js:9-14 | equal keys come only from queries with the same parameters |
| CacheKey.ListKeyCanonical | src/controllers/transactionController.js:9-14 | two queries share a listing key iff they hold the same parameters |
| Text.LessIrreflexive | src/controllers/transactionController.js:9 | no key sorts before itself |
| Text.LessTransitive | src/controllers/transactionController.js:9 | the default sort order is transitive |
| Text.LessTotal | src/controllers/transactionController.js:9 | any two distinct keys are ordered |
| Text.LessAsymmetric | src/controllers/transactionController.js:9 | two keys cannot each sort before the other |
| Text.Split | seed.js:32 | `split` always yields at least one piece |
| Text.SplitCount | seed.js:32 | `split` yields one piece more than the separators in the string |
| Text.SplitPieces | seed.js:32 | no piece contains the separator |
| Text.SplitJoin | seed.js:32 | joining the pieces with the separator gives the string back |
| Text.LeadingSpace | seed.js:32 | the length of the leading whitespace run |
| Text.TrailingStart | seed.js:32 | the start of the trailing whitespace run |
| Text.Trim | seed.js:32 | the trimmed string has no whitespace at either end, and is the input with only whitespace removed from both ends |
| Text.TrimWithin | seed.js:32 | trimming adds no character |
| Text.TrimIdempotent | seed.js:32 | trimming twice equals trimming once |
| Text.EscapeChar | src/controllers/transactionController.js:14 | a character's JSON escape is itself, a two-character escape or a `\u` escape, never starting with a quote |
| Text.HexDigitInjective | src/controllers/transactionController.js:14 | distinct nibbles give distinct hex digits |
| Text.EscapeCharInjective | src/controllers/transactionController.js:14 | distinct characters have distinct escapes |
| Text.EscapeCharPrefixFree | src/controllers/transactionController.js:14 | one escape never hides another at the front of a string |
| Text.EscapePrefixFree | src/controllers/transactionController.js:14 | an escaped string followed by a closing quote determines the string |
| Text.QuotePrefixFree | src/controllers/transactionController.js:14 | a JSON string literal at the front of a text determines the string and the rest of the text |
| TransactionController.Controller.constructor | src/controllers/transactionController.js:1-2 | the handlers start over a valid collection and an empty cache |
| TransactionController.Controller.GetAllTransactions | src/controllers/transactionController.js:5-33 | a hit answers the cached listing and changes nothing; a miss answers the service's listing and caches it for 3600 s under the query's key; a store error answers 500 "Server Error" with its message; every 200 carries the current listing for the query, and the invariant holds after |
| TransactionController.Controller.GetFilterOptions | src/controllers/transactionController.js:37-57 | answers the current distinct regions and categories, from the cache or computed and cached for 86400 s under "filter_options"; a store error answers 500 "Failed to fetch options" without details |
| TransactionController.Controller.GetStats | src/controllers/transactionController.js:108-127 | answers the current stats, from the cache or computed and cached for 3600 s under "transaction_stats"; a store error answers 500 "Failed to fetch stats" |
| TransactionController.Controller.CreateTransaction | src/controllers/transactionController.js:60-73 | a saved record answers 201 with the record and empties the cache; a validation failure or store error answers 500 "Failed to create transaction" with the error's message and changes neither the collection nor the cache |
| TransactionController.Controller.UpdateTransaction | src/controllers/transactionController.js:76-89 | an existing id answers 200 with the patched record and empties the cache; an unknown id answers 404 and leaves the cache; a store error answers 500 "Failed to update transaction" |
| TransactionController.Controller.DeleteTransaction | src/controllers/transactionController.js:92-105 | an existing id is removed, the cache emptied and the answer is "Transaction deleted successfully"; an unknown id answers 404; a store error answers 500 |
| Seed.ParseNumber | seed.js:13 | an empty or non-numeric cell gives 0, otherwise its number |
| Seed.ParseDate | seed.js:16 | an empty cell gives the instant at which this row is mapped, otherwise the parsed date |
| Seed.Alias | seed.js:19-47 | the spaced header's cell when it is non-empty, otherwise the underscored header's cell |
| Seed.Tags | seed.js:32 | no tags for an empty cell; otherwise one tag per comma-separated piece, each the trimmed piece, with no comma and no surrounding whitespace |
| Seed.MapRowToTransaction | seed.js:11-49 | a row mapped at a given instant always has a quantity and a date, and never a currency or an image |
| Seed.RowAccepted | seed.js:11-49 | a mapped row validates iff its five identity texts are non-empty; it is then stored in "INR" with the parsed quantity |
| Seed.Mapped | seed.js:66-67 | one draft per row |
| Seed.MappedRows | seed.js:66-67 | the i-th draft is the mapping of the i-th row, made at the clock's i-th reading |
| Seed.FlattenAppend | seed.js:61-82 | flattening distributes over appending a batch |
| Seed.ChunksLaws | seed.js:61-82 | the chunks of a sequence concatenate back to it; each is non-empty and at most the batch size, and all but the last are full |
| Seed.ChunksAfterFull | seed.js:61-82 | full leading batches are kept as they are by chunking |
| Seed.ChunksOfFull | seed.js:61-82 | chunking a sequence of full batches gives those batches |
| Seed.FullHead | seed.js:70 | a full first batch is the first chunk |
| Seed.NextChunk | seed.js:66-82 | emitting a batch, full or final, extends the written batches along the chunking of all rows |
| Seed.AllValidAppend | seed.js:71 | two batches are valid together iff each is |
| Seed.RecordsAppend | seed.js:71 | the records of two valid batches are the records of each, concatenated |
| Seed.NumberedAppend | seed.js:71 | numbering two batches one after the other equals numbering their concatenation |
| Seed.WrittenBehind | seed.js:71-72 | after a valid batch, the collection holds the written rows followed by the batch |
| Seed.InsertBatch | seed.js:71 | a valid batch is appended after the rows written so far; an invalid one fails with its first validation error and changes nothing |
| Seed.WriteFull | seed.js:70-75 | a batch that has filled to 1000 is appended after the rows written so far and becomes the next chunk; a refused one stops the import with its error, leaving the earlier chunks |
| Seed.WriteLeftover | seed.js:78-82 | a non-empty remainder is written as the final batch; an empty one writes nothing |
| Seed.WriteInBatches | seed.js:61-82 | succeeds iff every draft is valid, with the count of all rows, the collection numbered in row order, and the written batches the 1000-chunking of the rows; otherwise it stops at the first failing chunk, and only the full chunks before it are in the collection |
| Seed.SeedDatabase | seed.js:51-90 | the collection is cleared, then it ends with exactly the mapped rows, or with the chunks before the first invalid one |
| Retention.ReduceData | reduceData.js:10-24 | at most 5000 records: nothing is deleted; more: exactly 5000 remain, unchanged, none postdated by a deleted record, and the count deleted is the excess |
| Retention.SelectionsDifferOnlyInTies | reduceData.js:16 | two most-recent selections differ only in records with the same date |
| Retention.DistinctDatesDetermineSelection | reduceData.js:16 | when all dates differ, the records kept are determined |

## Left out

- Database connection, `process.exit`, console output, the CSV stream and the dotenv configuration are left out. The seeder gets its rows as a sequence. The seeder reads `MONGO_URI` and the reducer reads `MONGODB_URI`; this model does not cover connection strings.
- Query execution is abstract:
  - The store's ordering of results is unspecified. `Find` promises a window over some listing of all matching records, and does not model the sort comparator or ties.
  - Regular-expression matching (`$regex`, option "i") is a parameter, `Engine.regex`.
- `RecordStore.Store.EstimatedDocumentCount` returns the exact size of the collection. The real call reads collection metadata and may lag.
- The JavaScript coercions are parameters (`Coercions`): `parseInt`, `Number` and `new Date`. Floating point, `NaN` and invalid dates are not modelled; amounts and quantities are integers.
- TransactionService.GetTransactions, TransactionService.Translate and TransactionController.Controller.GetAllTransactions require `ValidPaging`: page and perPage parse to integers of at least 1. Other values make the service compute a negative skip or a zero or NaN limit, with results the store decides; those are not modelled.
- Nested query objects (`a[b]=c`) are not modelled. A parameter is a string or a list of strings.
- Key order in the cache key:
  - `JSON.stringify` puts integer-like keys first. The model keeps the sorted order for every key.
  - The sort compares characters, where JavaScript compares UTF-16 code units. The two agree on the basic multilingual plane.
  - Canonicity of the key holds either way.
- Cache timing: expiry after the ttl, the check period, and the cache's `del`/`stats` helpers are left out. An entry remembers its ttl and stays until flushed, so `Coherent()` speaks of unexpired entries.
- The cache's default ttl of 60 s and its check period of 120 s (`src/services/cacheService.js:4`) are not modelled: every set in the handlers passes its own ttl.
- Seed.ParseDate and Seed.RowAccepted: a filled Date cell that does not parse gives `Invalid Date` in the source. Mongoose refuses it when it casts the batch, and the import ends. The model takes the date parser as a total function to instants, so such a row counts as accepted.
- The seeder's direct writes bypass the cache: the controller's coherence invariant is proved only for writes made through the handlers.
- The handlers test a cached value for truthiness. Every cached payload is an object, which is always truthy, so a stored entry is always a hit.
- Concurrency: interleaved requests, and writes made between a cache miss and its set, are left out. Each handler is atomic.
- A malformed id, which makes the store's cast fail, is not modelled. Ids are naturals, and update/delete of an unknown id take the 404 path. The store's errors reach the handlers as a `fault` parameter.
- Update runs no validators, as in the code: `ApplyPatch` may set a required text to the empty string. Unknown body fields, `timestamps`, `_id` generation and the text and path indexes are left out.
- Seed.InsertBatch passes no store fault, so the seeder's write errors are only validation failures. A connection failure during the import is not modelled.
- Seed.SeedDatabase maps all rows up front and then batches them. The source maps each row as it streams by. The clock reading of each row is kept: row i is mapped at instant `clock(i)`, so the batches written are the same.
- The route table (`src/routes/transactionRoutes.js`) and the server entry point (`src/index.js`) are not part of this model. Only the handlers they bind are modelled.
