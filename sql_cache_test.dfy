/** The cache's JUnit scenarios as verified methods. Each scenario starts from
    `SetUp`, performs the test's calls on a fresh cache and returns what the
    test inspects; its `ensures` are the test's assertions, stated for every
    run rather than for one. */
module SqlNormalizedCacheTest {
  import opened Records
  import opened Headers
  import SqlCache

  const STANDARD_KEY: string := "key"
  const QUERY_ROOT_KEY: string := "QUERY_ROOT"
  /** The decoded form of the test's `{"fieldKey": "value"}`. */
  const FIELDS: FieldMap := map["fieldKey" := StringValue("value")]

  /** The fields the merge tests write. */
  const MERGED_FIELDS: FieldMap := map["fieldKey" := StringValue("valueUpdated"), "newFieldKey" := BoolValue(true)]

  /** A new cache over an empty in-memory database, cleared once more. */
  method SetUp() returns (store: SqlCache.SqlNormalizedCache)
    ensures fresh(store) && store.records == map[]
  {
    store := new SqlCache.SqlNormalizedCache();
    store.ClearAll();
  }

  /** The test's helper: create the record `key` with the standard fields. */
  method CreateRecord(store: SqlCache.SqlNormalizedCache, key: string)
    modifies store
    ensures store.records == old(store.records)[key := FIELDS]
  {
    store.CreateRecord(key, FIELDS);
  }

  method TestRecordCreation() returns (loaded: Option<Record>)
    ensures loaded.Some?
    ensures loaded == Some(Record(STANDARD_KEY, FIELDS))
  {
    var store := SetUp();
    CreateRecord(store, STANDARD_KEY);
    loaded := store.LoadRecord(STANDARD_KEY, NONE);
  }

  method TestRecordCreationRoot() returns (loaded: Option<Record>)
    ensures loaded.Some?
    ensures loaded == Some(Record(QUERY_ROOT_KEY, FIELDS))
  {
    var store := SetUp();
    CreateRecord(store, QUERY_ROOT_KEY);
    loaded := store.LoadRecord(QUERY_ROOT_KEY, NONE);
  }

  method TestRecordSelection() returns (record: Option<Record>)
    ensures record.Some? && record.value.key == STANDARD_KEY
  {
    var store := SetUp();
    CreateRecord(store, STANDARD_KEY);
    record := store.SelectRecordForKey(STANDARD_KEY);
  }

  method TestRecordSelectionRoot() returns (record: Option<Record>)
    ensures record.Some? && record.value.key == QUERY_ROOT_KEY
  {
    var store := SetUp();
    CreateRecord(store, QUERY_ROOT_KEY);
    record := store.SelectRecordForKey(QUERY_ROOT_KEY);
  }

  method TestRecordSelectionRecordNotPresent() returns (record: Option<Record>)
    ensures record.None?
  {
    var store := SetUp();
    record := store.LoadRecord(STANDARD_KEY, NONE);
  }

  method TestRecordMerge() returns (record: Option<Record>)
    ensures record.Some?
    ensures "fieldKey" in record.value.fields && record.value.fields["fieldKey"] == StringValue("valueUpdated")
    ensures "newFieldKey" in record.value.fields && record.value.fields["newFieldKey"] == BoolValue(true)
    ensures record.value.fields == MERGED_FIELDS
  {
    var store := SetUp();
    store.Merge(Record(STANDARD_KEY, MERGED_FIELDS), NONE);
    record := store.SelectRecordForKey(STANDARD_KEY);
  }

  method TestRecordDelete() returns (record: Option<Record>)
    ensures record.None?
  {
    var store := SetUp();
    CreateRecord(store, STANDARD_KEY);
    store.Merge(Record(STANDARD_KEY, MERGED_FIELDS), NONE);
    var _ := store.DeleteRecord(STANDARD_KEY);
    record := store.SelectRecordForKey(STANDARD_KEY);
  }

  method TestClearAll() returns (root: Option<Record>, standard: Option<Record>)
    ensures root.None? && standard.None?
  {
    var store := SetUp();
    CreateRecord(store, QUERY_ROOT_KEY);
    CreateRecord(store, STANDARD_KEY);
    store.ClearAll();
    root := store.SelectRecordForKey(QUERY_ROOT_KEY);
    standard := store.SelectRecordForKey(STANDARD_KEY);
  }

  method TestHeaderEvictAfterRead() returns (record: Option<Record>, nullRecord: Option<Record>)
    ensures record == Some(Record(STANDARD_KEY, FIELDS))
    ensures nullRecord.None?
  {
    var store := SetUp();
    CreateRecord(store, STANDARD_KEY);
    record := store.LoadRecord(STANDARD_KEY, map[EVICT_AFTER_READ := "true"]);
    nullRecord := store.LoadRecord(STANDARD_KEY, map[EVICT_AFTER_READ := "true"]);
  }

  method TestHeaderNoCache() returns (record: Option<Record>)
    ensures record.None?
  {
    var store := SetUp();
    store.Merge(Record(STANDARD_KEY, map[]), map[DO_NOT_STORE := "true"]);
    record := store.LoadRecord(STANDARD_KEY, NONE);
  }
}
