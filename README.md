# SQLite normalized record cache, modelled in Dafny

This project models `SqlNormalizedCache`, the record store of Apollo Android's
normalized cache. The cache flattens GraphQL responses into records. A record
is a key (`"QUERY_ROOT"` for the query root, a path-derived key otherwise)
plus a flat map from field name to field value. The model keeps these records
in one table, which callers reach through six operations:

- `createRecord(key, fields)`: an unconditional upsert.
- `loadRecord(key, headers)`: a read that honours the cache headers.
- `selectRecordForKey(key)`: a read with no headers.
- `merge(record, headers)`: a field-level upsert that creates the record when it is absent.
- `deleteRecord(key)`.
- `clearAll()`.

Two cache headers are interpreted:

- `EVICT_AFTER_READ = "true"` on a read: the record is returned and then deleted.
- `DO_NOT_STORE = "true"` on a merge: the write is suppressed.

`CacheHeaders.NONE` carries neither header.

The behaviour is the one fixed by `SqlNormalizedCacheTest`. The implementation
class `SqlNormalizedCache` is not part of this model: the model gives every
operation exactly the effect the tests observe and that the cache documents
for these operations.

Files:

- `records.dfy` (module `Records`): field values, records, `Option`, and
  `MergeFields`, the field-level upsert, with its algebra (idempotent,
  additive, later value wins).
- `headers.dfy` (module `Headers`): `CacheHeaders`, the two recognised names,
  `NONE`, and the pure read and write policy.
- `cache_spec.dfy` (module `CacheSpec`): the cache as a per-key state machine
  over a finite table. `Apply` gives the effect of one call and `Answer` what it
  returns; `Run` replays a sequence of calls. The lemmas cover single calls
  and whole traces: per-key independence, absent → present only through a
  write, present → absent only through delete, clear or an evicting read, and
  merges never dropping a field.
- `sql_cache.dfy` (module `SqlCache`): the class `SqlNormalizedCache`. It holds
  a mutable `records` map that its methods update in place. Each method that
  changes the table states its new table directly and as the matching
  `CacheSpec.Apply` step. Each method that replies states its reply as the
  matching `CacheSpec.Answer`. So a caller can carry the trace lemmas over to
  the class call by call. The constructor starts from the empty table.
- `sql_cache_test.dfy` (module `SqlNormalizedCacheTest`): each JUnit test as a
  method. Each one starts from `SetUp`, makes the test's calls and proves the
  test's assertions.

## Model

| member | source | states |
|---|---|---|
| Records.MergeFields | apollo-normalized-cache-sqlite/src/test/java/com/apollographql/apollo/cache/normalized/sql/SqlNormalizedCacheTest.java:80-83 | merged fields are the union of old and incoming names; every incoming field takes the incoming value; a field only in the old map keeps its value (merge never removes) |
| Records.MergeIntoEmpty | apollo-normalized-cache-sqlite/src/test/java/com/apollographql/apollo/cache/normalized/sql/SqlNormalizedCacheTest.java:69-75 | merging into an absent record stores exactly the incoming fields |
| Records.MergeFieldsIdempotent | apollo-normalized-cache-sqlite/src/test/java/com/apollographql/apollo/cache/normalized/sql/SqlNormalizedCacheTest.java:80-83 | merging the same fields twice gives the same stored fields as merging once |
| Records.MergeFieldsSequential | apollo-normalized-cache-sqlite/src/test/java/com/apollographql/apollo/cache/normalized/sql/SqlNormalizedCacheTest.java:80-83 | two merges in a row equal one merge of the combined fields, the later merge winning on shared names |
| Records.MergeFieldsAdditive | apollo-normalized-cache-sqlite/src/test/java/com/apollographql/apollo/cache/normalized/sql/SqlNormalizedCacheTest.java:80-83 | after merges of two different fields both fields are present with their values, and no other field appears |
| Records.MergeFieldsOverwrite | apollo-normalized-cache-sqlite/src/test/java/com/apollographql/apollo/cache/normalized/sql/SqlNormalizedCacheTest.java:80-83 | when two merges write the same field, the later value is the one stored |
| Headers.IsSet | apollo-normalized-cache-sqlite/src/test/java/com/apollographql/apollo/cache/normalized/sql/SqlNormalizedCacheTest.java:104-105 | a header counts as set when its value is "true"; absent or "false" means not set |
| Headers.NoneSetsNothing | apollo-normalized-cache-sqlite/src/test/java/com/apollographql/apollo/cache/normalized/sql/SqlNormalizedCacheTest.java:34 | `NONE` asks for neither eviction nor write suppression |
| Headers.SingleHeaderSetsOnlyItself | apollo-normalized-cache-sqlite/src/test/java/com/apollographql/apollo/cache/normalized/sql/SqlNormalizedCacheTest.java:104-115 | the evict-after-read header set of the tests evicts and does not suppress writes; the do-not-store header set suppresses writes and does not evict |
| Headers.UnrecognisedHeaderIgnored | apollo-normalized-cache-sqlite/src/test/java/com/apollographql/apollo/cache/normalized/sql/SqlNormalizedCacheTest.java:99-118 | adding or changing any header other than the two recognised names changes neither decision |
| Headers.EvictAfterRead | apollo-normalized-cache-sqlite/src/test/java/com/apollographql/apollo/cache/normalized/sql/SqlNormalizedCacheTest.java:104-108 | a read evicts exactly when the `EVICT_AFTER_READ` header is present with value "true" |
| Headers.DoNotStore | apollo-normalized-cache-sqlite/src/test/java/com/apollographql/apollo/cache/normalized/sql/SqlNormalizedCacheTest.java:114-115 | a write is suppressed exactly when the `DO_NOT_STORE` header is present with value "true" |
| CacheSpec.Apply | apollo-normalized-cache-sqlite/src/test/java/com/apollographql/apollo/cache/normalized/sql/SqlNormalizedCacheTest.java:31-118 | one call changes no key it does not touch; a key appears only through createRecord or an unsuppressed merge, and always does then; a key disappears only through deleteRecord, clearAll or an evicting load, and always does then |
| CacheSpec.Answer | apollo-normalized-cache-sqlite/src/test/java/com/apollographql/apollo/cache/normalized/sql/SqlNormalizedCacheTest.java:34-116 | loads and selects reply with a record exactly when the key is stored before the call, carrying that key and its stored fields; a delete replies whether the key was stored; other calls reply nothing |
| CacheSpec.LoadAnswersAsSelect | apollo-normalized-cache-sqlite/src/test/java/com/apollographql/apollo/cache/normalized/sql/SqlNormalizedCacheTest.java:101-110 | eviction is a side effect, not a filter: a load under any headers replies as a select, or a load with `NONE`, of the same key |
| CacheSpec.Get | apollo-normalized-cache-sqlite/src/test/java/com/apollographql/apollo/cache/normalized/sql/SqlNormalizedCacheTest.java:48-50 | a read finds a record exactly when the key is stored; the record found has the requested key and the stored fields |
| CacheSpec.MergeRecord | apollo-normalized-cache-sqlite/src/test/java/com/apollographql/apollo/cache/normalized/sql/SqlNormalizedCacheTest.java:67-87 | merging adds the record's key to the table and changes no other key; an absent record is created with exactly the incoming fields; a present record gets every incoming field and keeps every field the merge does not carry |
| CacheSpec.ApplyFrame | apollo-normalized-cache-sqlite/src/test/java/com/apollographql/apollo/cache/normalized/sql/SqlNormalizedCacheTest.java:91-92 | a call on another key (anything but clearAll) leaves the record at a key as it was |
| CacheSpec.ApplyLocal | apollo-normalized-cache-sqlite/src/test/java/com/apollographql/apollo/cache/normalized/sql/SqlNormalizedCacheTest.java:91-92 | what one call does to the record at a key depends only on that record, not on the rest of the table |
| CacheSpec.CreateThenLoad | apollo-normalized-cache-sqlite/src/test/java/com/apollographql/apollo/cache/normalized/sql/SqlNormalizedCacheTest.java:31-43 | after createRecord(k, F), loadRecord(k, h) returns the record k with fields F, for every key including the root key |
| CacheSpec.EvictAfterReadOnce | apollo-normalized-cache-sqlite/src/test/java/com/apollographql/apollo/cache/normalized/sql/SqlNormalizedCacheTest.java:101-110 | an evicting read of a present record returns it; the identical read right after returns absent |
| CacheSpec.PlainReadsChangeNothing | apollo-normalized-cache-sqlite/src/test/java/com/apollographql/apollo/cache/normalized/sql/SqlNormalizedCacheTest.java:45-59 | a select, and a load without evict-after-read, leave the table unchanged |
| CacheSpec.DoNotStoreChangesNothing | apollo-normalized-cache-sqlite/src/test/java/com/apollographql/apollo/cache/normalized/sql/SqlNormalizedCacheTest.java:112-118 | a merge under do-not-store leaves the table unchanged, whatever record it carries |
| CacheSpec.MergeIdempotent | apollo-normalized-cache-sqlite/src/test/java/com/apollographql/apollo/cache/normalized/sql/SqlNormalizedCacheTest.java:67-76 | merging the same record twice leaves the table as after the first merge, under any headers |
| CacheSpec.DeleteThenAbsent | apollo-normalized-cache-sqlite/src/test/java/com/apollographql/apollo/cache/normalized/sql/SqlNormalizedCacheTest.java:78-87 | after deleteRecord(k) both reads of k return absent; deleting an absent key reports false and changes nothing |
| CacheSpec.ClearAllEmpties | apollo-normalized-cache-sqlite/src/test/java/com/apollographql/apollo/cache/normalized/sql/SqlNormalizedCacheTest.java:89-96 | after clearAll every key reads as absent |
| CacheSpec.PerKeyIndependence | apollo-normalized-cache-sqlite/src/test/java/com/apollographql/apollo/cache/normalized/sql/SqlNormalizedCacheTest.java:89-96 | the record at k after any trace depends only on the record at k before it and on the calls of the trace that touch k |
| CacheSpec.UntouchedKeyUnchanged | apollo-normalized-cache-sqlite/src/test/java/com/apollographql/apollo/cache/normalized/sql/SqlNormalizedCacheTest.java:91-92 | a trace none of whose calls touches k leaves the record at k as it was |
| CacheSpec.PresentOnlyAfterStore | apollo-normalized-cache-sqlite/src/test/java/com/apollographql/apollo/cache/normalized/sql/SqlNormalizedCacheTest.java:61-76 | a key absent before a trace and present after it was written by a createRecord or by a merge without do-not-store |
| CacheSpec.AbsentOnlyAfterRemove | apollo-normalized-cache-sqlite/src/test/java/com/apollographql/apollo/cache/normalized/sql/SqlNormalizedCacheTest.java:84-109 | a key present before a trace and absent after it was removed by deleteRecord, clearAll or an evicting load |
| CacheSpec.MergesNeverDropFields | apollo-normalized-cache-sqlite/src/test/java/com/apollographql/apollo/cache/normalized/sql/SqlNormalizedCacheTest.java:80-83 | across any sequence of merges a present record stays present and keeps every field name it had |
| CacheSpec.NeverCreatedIsAbsent | apollo-normalized-cache-sqlite/src/test/java/com/apollographql/apollo/cache/normalized/sql/SqlNormalizedCacheTest.java:61-65 | starting from the cleared store, a key that no call of the trace wrote reads as absent (not an error) through both load and select |
| SqlCache.SqlNormalizedCache.constructor | apollo-normalized-cache-sqlite/src/test/java/com/apollographql/apollo/cache/normalized/sql/SqlNormalizedCacheTest.java:25-27 | a cache over a freshly created database holds no record |
| SqlCache.SqlNormalizedCache.CreateRecord | apollo-normalized-cache-sqlite/src/test/java/com/apollographql/apollo/cache/normalized/sql/SqlNormalizedCacheTest.java:120-122 | the key now maps to exactly the given fields, overwriting any earlier record; no other key changes |
| SqlCache.SqlNormalizedCache.LoadRecord | apollo-normalized-cache-sqlite/src/test/java/com/apollographql/apollo/cache/normalized/sql/SqlNormalizedCacheTest.java:104-109 | returns the record as stored before the call, or none when absent; under evict-after-read the key is then removed, otherwise the table is unchanged |
| SqlCache.SqlNormalizedCache.SelectRecordForKey | apollo-normalized-cache-sqlite/src/test/java/com/apollographql/apollo/cache/normalized/sql/SqlNormalizedCacheTest.java:48-50 | returns a record exactly when the key is stored, carrying that key and the stored fields; changes nothing |
| SqlCache.SqlNormalizedCache.Merge | apollo-normalized-cache-sqlite/src/test/java/com/apollographql/apollo/cache/normalized/sql/SqlNormalizedCacheTest.java:69-71 | under do-not-store the table is unchanged; otherwise it becomes the field-level merge of the record into the table |
| SqlCache.SqlNormalizedCache.DeleteRecord | apollo-normalized-cache-sqlite/src/test/java/com/apollographql/apollo/cache/normalized/sql/SqlNormalizedCacheTest.java:84 | the key is removed and nothing else; the result says whether a record was there |
| SqlCache.SqlNormalizedCache.ClearAll | apollo-normalized-cache-sqlite/src/test/java/com/apollographql/apollo/cache/normalized/sql/SqlNormalizedCacheTest.java:93 | the table becomes empty |
| SqlNormalizedCacheTest.SetUp | apollo-normalized-cache-sqlite/src/test/java/com/apollographql/apollo/cache/normalized/sql/SqlNormalizedCacheTest.java:23-29 | each scenario starts from a new, empty cache |
| SqlNormalizedCacheTest.CreateRecord | apollo-normalized-cache-sqlite/src/test/java/com/apollographql/apollo/cache/normalized/sql/SqlNormalizedCacheTest.java:120-122 | the key now holds the standard fields `{fieldKey: "value"}` |
| SqlNormalizedCacheTest.TestRecordCreation | apollo-normalized-cache-sqlite/src/test/java/com/apollographql/apollo/cache/normalized/sql/SqlNormalizedCacheTest.java:31-36 | the load after creation returns a record: `"key"` with the standard fields |
| SqlNormalizedCacheTest.TestRecordCreationRoot | apollo-normalized-cache-sqlite/src/test/java/com/apollographql/apollo/cache/normalized/sql/SqlNormalizedCacheTest.java:38-43 | the same holds for the root key `"QUERY_ROOT"` |
| SqlNormalizedCacheTest.TestRecordSelection | apollo-normalized-cache-sqlite/src/test/java/com/apollographql/apollo/cache/normalized/sql/SqlNormalizedCacheTest.java:45-51 | the select after creation returns a record whose key is `"key"` |
| SqlNormalizedCacheTest.TestRecordSelectionRoot | apollo-normalized-cache-sqlite/src/test/java/com/apollographql/apollo/cache/normalized/sql/SqlNormalizedCacheTest.java:53-59 | the select after creation returns a record whose key is `"QUERY_ROOT"` |
| SqlNormalizedCacheTest.TestRecordSelectionRecordNotPresent | apollo-normalized-cache-sqlite/src/test/java/com/apollographql/apollo/cache/normalized/sql/SqlNormalizedCacheTest.java:61-65 | a load on the empty store returns absent |
| SqlNormalizedCacheTest.TestRecordMerge | apollo-normalized-cache-sqlite/src/test/java/com/apollographql/apollo/cache/normalized/sql/SqlNormalizedCacheTest.java:67-76 | a merge into an absent key creates it; the select then shows fieldKey = "valueUpdated" and newFieldKey = true, and no other field |
| SqlNormalizedCacheTest.TestRecordDelete | apollo-normalized-cache-sqlite/src/test/java/com/apollographql/apollo/cache/normalized/sql/SqlNormalizedCacheTest.java:78-87 | after create, merge and delete, the select returns absent |
| SqlNormalizedCacheTest.TestClearAll | apollo-normalized-cache-sqlite/src/test/java/com/apollographql/apollo/cache/normalized/sql/SqlNormalizedCacheTest.java:89-96 | after clearAll both `"QUERY_ROOT"` and `"key"` read as absent |
| SqlNormalizedCacheTest.TestHeaderEvictAfterRead | apollo-normalized-cache-sqlite/src/test/java/com/apollographql/apollo/cache/normalized/sql/SqlNormalizedCacheTest.java:101-110 | the first evicting load returns the created record; the second returns absent |
| SqlNormalizedCacheTest.TestHeaderNoCache | apollo-normalized-cache-sqlite/src/test/java/com/apollographql/apollo/cache/normalized/sql/SqlNormalizedCacheTest.java:112-118 | after a merge under do-not-store, a plain load returns absent |

## Left out

- JSON codec: `createRecord` takes a JSON string, decoded by `RecordFieldJsonAdapter`. The model takes the decoded field map instead, and stores decoded maps. So decoding errors are not modelled: the codec is outside the cache and is not part of this model.
- Storage and its failures: the SQLDelight schema, the in-memory `JdbcSqliteDriver` and the storage errors it can raise are not modelled. The table is a Dafny map, and every operation succeeds.
- Concurrency: locking, and the atomicity of an evicting load or of a merge's read-modify-write, are not modelled. The model's calls are sequential, and each call is one atomic step.
- SqlCache.SqlNormalizedCache.Merge: the changed-field set that `merge` returns is not modelled, because the tests discard it; `Merge` returns nothing. Idempotence is stated for the stored table, not for the changed set.
- The `Record.builder` and `CacheHeaders.builder` builders: the model builds plain values instead.
- Header names: the names are constants standing for `ApolloCacheHeaders.EVICT_AFTER_READ` and `ApolloCacheHeaders.DO_NOT_STORE`. `ApolloCacheHeaders` is not part of this model. The model relies only on the two names being distinct. A header counts as set only when its value is exactly `"true"`.
- Field values: numbers are unbounded integers. Floating-point and other `Number` kinds are not modelled.
- Record keys: a key must not be empty, but no operation in the tests checks that. The model accepts any key.
