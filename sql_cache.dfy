/** The SQLite-backed normalized cache as an object whose one table is updated
    in place. The database table `key -> fields` is the map `records`. Each
    method that changes the table gives its new table both directly and as the
    matching step of the state machine `CacheSpec.Apply`; each method that
    replies gives its reply as the matching `CacheSpec.Answer`. The
    constructor starts from the empty table; `SelectRecordForKey` changes nothing. */
module SqlCache {
  import opened Records
  import opened Headers
  import opened CacheSpec

  class SqlNormalizedCache {
    /** The stored records: key to decoded field map. */
    var records: Table

    /** A cache over a freshly created, empty database. */
    constructor ()
      ensures records == map[]
    {
      records := map[];
    }

    /** Unconditional upsert of a whole field map, bypassing merge. */
    method CreateRecord(key: string, fields: FieldMap)
      modifies this
      ensures records == old(records)[key := fields]
      ensures records == Apply(old(records), Op.CreateRecord(key, fields))
    {
      records := records[key := fields];
    }

    /** A read that honours the headers: the record is captured first and,
        under evict-after-read, then deleted. Absence is `None`, not an error. */
    method LoadRecord(key: string, headers: CacheHeaders) returns (r: Option<Record>)
      modifies this
      ensures r == Get(old(records), key)
      ensures r.Some? <==> key in old(records)
      ensures r.Some? ==> r.value.key == key && r.value.fields == old(records)[key]
      ensures records == if EvictAfterRead(headers) then old(records) - {key} else old(records)
      ensures records == Apply(old(records), Op.LoadRecord(key, headers))
      ensures Loaded(r) == Answer(old(records), Op.LoadRecord(key, headers))
    {
      r := Get(records, key);
      if r.Some? && EvictAfterRead(headers) {
        records := records - {key};
      }
    }

    /** A read with no header evaluation and no side effect. */
    method SelectRecordForKey(key: string) returns (r: Option<Record>)
      ensures r.Some? <==> key in records
      ensures r.Some? ==> r.value.key == key && r.value.fields == records[key]
      ensures r == Get(records, key)
      ensures Loaded(r) == Answer(records, Op.SelectRecordForKey(key))
    {
      r := Get(records, key);
    }

    /** Field-level upsert of `record`, creating it when absent, unless the
        headers say do-not-store, in which case nothing is written. */
    method Merge(record: Record, headers: CacheHeaders)
      modifies this
      ensures DoNotStore(headers) ==> records == old(records)
      ensures !DoNotStore(headers) ==> records == MergeRecord(old(records), record)
      ensures records == Apply(old(records), Op.Merge(record, headers))
    {
      if DoNotStore(headers) {
        return;
      }
      records := MergeRecord(records, record);
    }

    /** Removes the record at `key`; reports whether there was one. */
    method DeleteRecord(key: string) returns (existed: bool)
      modifies this
      ensures existed == (key in old(records))
      ensures records == old(records) - {key}
      ensures records == Apply(old(records), Op.DeleteRecord(key))
      ensures Deleted(existed) == Answer(old(records), Op.DeleteRecord(key))
    {
      existed := key in records;
      records := records - {key};
    }

    /** Empties the whole table. */
    method ClearAll()
      modifies this
      ensures records == map[]
      ensures records == Apply(old(records), Op.ClearAll)
    {
      records := map[];
    }
  }
}
