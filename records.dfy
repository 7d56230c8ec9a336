/** Normalized records: a key and a flat map from field name to field value.
    Field values are opaque comparable units; the JSON form in which the cache
    stores them is not part of this model. */
module Records {

  datatype Option<+T> = None | Some(value: T)

  /** A field value: a scalar, null, or a reference to another record's key. */
  datatype Value =
    | StringValue(text: string)
    | BoolValue(flag: bool)
    | NumberValue(number: int)
    | NullValue
    | Reference(target: string)

  /** Field name to field value; the order of fields is irrelevant. */
  type FieldMap = map<string, Value>

  /** One normalized object, as handed to or returned by the cache. */
  datatype Record = Record(key: string, fields: FieldMap)

  /** Field-level upsert of `incoming` into `existing`: every incoming field is
      applied, every field only in `existing` is kept, nothing is removed. */
  function MergeFields(existing: FieldMap, incoming: FieldMap): (merged: FieldMap)
    ensures merged.Keys == existing.Keys + incoming.Keys
    ensures forall f :: f in incoming ==> merged[f] == incoming[f]
    ensures forall f :: f in existing && f !in incoming ==> merged[f] == existing[f]
  {
    existing + incoming
  }

  /** Merging into an absent record (an empty field map) stores exactly the incoming fields. */
  lemma MergeIntoEmpty(incoming: FieldMap)
    ensures MergeFields(map[], incoming) == incoming
  {
  }

  /** Merging the same fields a second time changes nothing. */
  lemma MergeFieldsIdempotent(existing: FieldMap, incoming: FieldMap)
    ensures MergeFields(MergeFields(existing, incoming), incoming) == MergeFields(existing, incoming)
  {
  }

  /** Two merges in a row are one merge of the combined fields, the later
      merge winning on a field both carry. */
  lemma MergeFieldsSequential(existing: FieldMap, first: FieldMap, second: FieldMap)
    ensures MergeFields(MergeFields(existing, first), second)
         == MergeFields(existing, MergeFields(first, second))
  {
  }

  /** Merge additivity: fields written by disjoint merges all survive. */
  lemma MergeFieldsAdditive(existing: FieldMap, a: string, va: Value, b: string, vb: Value)
    requires a != b
    ensures var m := MergeFields(MergeFields(existing, map[a := va]), map[b := vb]);
      a in m && b in m && m[a] == va && m[b] == vb && m.Keys == existing.Keys + {a, b}
  {
  }

  /** Overwrite on overlap: the later value of a field replaces the earlier one. */
  lemma MergeFieldsOverwrite(existing: FieldMap, f: string, x: Value, y: Value)
    ensures var m := MergeFields(MergeFields(existing, map[f := x]), map[f := y]);
      f in m && m[f] == y
  {
  }
}
