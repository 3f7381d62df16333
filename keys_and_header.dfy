/**
 * `NestedValueToKeysAndHeader`: replaces the record key with a map of derived
 * fields and appends derived headers. The schemaless path reads each path as
 * a flat, top-level key of the value map; the schema-bound path evaluates it
 * with the JSON-path extractors.
 */
module KeysAndHeaderTransform {
  import opened Connect
  import opened Extraction

  const KeyFieldMapping := "keyFieldMapping"
  const HeaderFieldMapping := "headerFieldMapping"
  const Purpose := "construct the record key and header from value"

  /** The key schema attached on the schema-bound path: string to optional string. */
  const KeyMapSchema := MapSchema(StringSchema(false), StringSchema(true), "MAP_STRING_TO_ANY",
                                  "Schema generated by NestedValueToKeysAndHeader SMT")

  /** Flat lookup: each field name with `value.get(path)`, in mapping order. */
  function FlatKey(m: FieldMapping, entries: seq<(string, Val)>): (kv: seq<(string, Val)>)
    ensures Keys(kv) == Keys(m)
    ensures DistinctKeys(m) ==> DistinctKeys(kv)
  {
    seq(|m|, i requires 0 <= i < |m| => (m[i].0, Get(entries, m[i].1)))
  }

  /**
   * In the derived key every field name maps to the top-level value at its
   * path, and to null when the value map has no such key.
   */
  lemma FlatKeyLookup(m: FieldMapping, entries: seq<(string, Val)>, i: nat)
    requires DistinctKeys(m) && i < |m|
    ensures Get(FlatKey(m, entries), m[i].0) == Get(entries, m[i].1)
    ensures (forall j :: 0 <= j < |entries| ==> entries[j].0 != m[i].1) ==>
              Get(FlatKey(m, entries), m[i].0) == Null
  {
    FindEntry(FlatKey(m, entries), i);
  }

  /**
   * The schemaless lookup is one level deep: a dotted path is read as a
   * single key, so it does not reach into a nested map.
   */
  lemma FlatLookupIsShallow()
    ensures var value := [("a", MapValue([("b", Num(1))]))];
      FlatKey([("k", "a.b")], value) == [("k", Null)]
  {
  }

  /**
   * `keyFieldMapping = id:identifier`, `headerFieldMapping = src:source` on the
   * schemaless value `{identifier: abc123, source: svcA}` derive the key
   * `{id: abc123}` and the single header `src = svcA`.
   */
  lemma KeyAndHeaderScenario()
    ensures var value := [("identifier", Str("abc123")), ("source", Str("svcA"))];
      && FlatKey([("id", "identifier")], value) == [("id", Str("abc123"))]
      && AsHeaders(FlatKey([("src", "source")], value)) == [Header("src", Str("svcA"), None)]
  {
  }

  class NestedValueToKeysAndHeader {
    const keySchema: Schema
    var keyFieldList: Option<FieldMapping>
    var keyFieldMap: Option<FieldMapping>
    var headerFieldList: Option<FieldMapping>
    var headerFieldMap: Option<FieldMapping>
    var keyFieldExtractor: Option<Extractor>
    var headerFieldExtractor: Option<Extractor>

    /**
     * Each extractor is the one bound to its mapping, and the header mapping
     * is only ever bound after the key mapping.
     */
    ghost predicate Valid()
      reads this
    {
      && keySchema == KeyMapSchema
      && (keyFieldMap.Some? ==> WellFormed(keyFieldMap.value))
      && (headerFieldMap.Some? ==> WellFormed(headerFieldMap.value))
      && keyFieldExtractor == ExtractorFor(keyFieldMap, KeyFieldMapping)
      && headerFieldExtractor == ExtractorFor(headerFieldMap, HeaderFieldMapping)
      && (headerFieldMap.Some? ==> keyFieldMap.Some?)
    }

    /** The Configured state: both mappings and both extractors bound. */
    ghost predicate Configured()
      reads this
    {
      Valid() && keyFieldMap.Some? && headerFieldMap.Some?
    }

    /** A new instance is Unconfigured: every field is null. */
    constructor ()
      ensures Valid() && keyFieldMap == None && headerFieldMap == None
      ensures keyFieldList == None && headerFieldList == None
    {
      keySchema := KeyMapSchema;
      keyFieldList, keyFieldMap, keyFieldExtractor := None, None, None;
      headerFieldList, headerFieldMap, headerFieldExtractor := None, None, None;
    }

    /**
     * Reads both lists, then checks the key list before the header list. The
     * key mapping is bound before the header list is checked, so a missing
     * header list leaves the new key mapping bound and the header mapping as
     * it was.
     */
    method Configure(props: Props) returns (r: Result<()>)
      requires Valid()
      requires KeyFieldMapping in props ==> DistinctKeys(props[KeyFieldMapping])
      requires IsSet(GetList(props, KeyFieldMapping)) && HeaderFieldMapping in props ==>
                 DistinctKeys(props[HeaderFieldMapping])
      modifies this
      ensures Valid()
      ensures keyFieldList == GetList(props, KeyFieldMapping)
      ensures headerFieldList == GetList(props, HeaderFieldMapping)
      ensures !IsSet(keyFieldList) ==>
        && r == Err(ConfigError(KeyFieldMapping))
        && keyFieldMap == old(keyFieldMap) && headerFieldMap == old(headerFieldMap)
      ensures IsSet(keyFieldList) && !IsSet(headerFieldList) ==>
        && r == Err(ConfigError(HeaderFieldMapping))
        && keyFieldMap == keyFieldList && headerFieldMap == old(headerFieldMap)
      ensures IsSet(keyFieldList) && IsSet(headerFieldList) ==>
        && r == Ok(())
        && keyFieldMap == keyFieldList && headerFieldMap == headerFieldList
        && Configured()
    {
      headerFieldList := GetList(props, HeaderFieldMapping);
      keyFieldList := GetList(props, KeyFieldMapping);
      if !IsSet(keyFieldList) {
        return Err(ConfigError(KeyFieldMapping));
      }
      keyFieldMap := keyFieldList;
      keyFieldExtractor := Some(Extractor(keyFieldList.value, KeyFieldMapping));
      if !IsSet(headerFieldList) {
        return Err(ConfigError(HeaderFieldMapping));
      }
      headerFieldMap := headerFieldList;
      headerFieldExtractor := Some(Extractor(headerFieldList.value, HeaderFieldMapping));
      return Ok(());
    }

    /**
     * Schemaless path: the value must be a map. The new key is an ordered map
     * of the key fields read by flat lookup; when a header mapping is bound,
     * one header per entry, read the same way, follows the record's headers.
     * The partition and key schema become null; the rest passes through.
     */
    method ApplySchemaless(record: Record) returns (r: Result<Record>)
      requires Valid() && keyFieldMap.Some?
      ensures !record.value.MapValue? ==> r == Err(NotAMap(Purpose))
      ensures record.value.MapValue? ==> var entries := record.value.entries;
        r == Ok(Record(record.topic, None, None, MapValue(FlatKey(keyFieldMap.value, entries)),
                       record.valueSchema, record.value, record.timestamp,
                       record.headers + (if headerFieldMap.Some? then AsHeaders(FlatKey(headerFieldMap.value, entries)) else [])))
    {
      if !record.value.MapValue? {
        return Err(NotAMap(Purpose));
      }
      var value := record.value.entries;
      var headers := record.headers;
      var keyData: seq<(string, Val)> := [];
      var km := keyFieldMap.value;
      var i := 0;
      while i < |km|
        invariant 0 <= i <= |km|
        invariant keyData == FlatKey(km[..i], value)
      {
        PutAbsent(keyData, km[i].0, Get(value, km[i].1));
        keyData := Put(keyData, km[i].0, Get(value, km[i].1));
        assert km[..i + 1] == km[..i] + [km[i]];
        i := i + 1;
      }
      assert km[..i] == km;
      if headerFieldMap.Some? {
        var hm := headerFieldMap.value;
        var j := 0;
        while j < |hm|
          invariant 0 <= j <= |hm|
          invariant headers == record.headers + AsHeaders(FlatKey(hm[..j], value))
        {
          assert hm[..j + 1] == hm[..j] + [hm[j]];
          assert AsHeaders(FlatKey(hm[..j + 1], value))
              == AsHeaders(FlatKey(hm[..j], value)) + [Header(hm[j].0, Get(value, hm[j].1), None)];
          headers := headers + [Header(hm[j].0, Get(value, hm[j].1), None)];
          j := j + 1;
        }
        assert hm[..j] == hm;
      } else {
        assert headers == record.headers + [];
      }
      assert keyData == FlatKey(km, value);
      return Ok(Record(record.topic, None, None, MapValue(keyData), record.valueSchema, record.value,
                       record.timestamp, headers));
    }

    /**
     * Schema-bound path: the value must be a struct. Headers are extracted
     * first, then the whole key; the first malformed path aborts. The key
     * carries the fixed map schema and the struct's own schema becomes the
     * value schema.
     */
    method ApplyWithSchema(record: Record, extractObject: Record -> Val, eval: PathEval) returns (r: Result<Record>)
      requires Configured()
      ensures !record.value.StructValue? ==> r == Err(NotAStruct(Purpose))
      ensures record.value.StructValue? ==>
        var hm, km, body := headerFieldMap.value, keyFieldMap.value, extractObject(record);
        && (!AllResolve(hm, body, eval) ==>
              r == Err(ExtractionError(HeaderFieldMapping, hm[FirstUnresolved(hm, body, eval)].0)))
        && (AllResolve(hm, body, eval) && !AllResolve(km, body, eval) ==>
              r == Err(ExtractionError(KeyFieldMapping, km[FirstUnresolved(km, body, eval)].0)))
        && (AllResolve(hm, body, eval) && AllResolve(km, body, eval) ==>
              r == Ok(Record(record.topic, None, Some(KeyMapSchema), MapValue(Extracted(km, body, eval)),
                             Some(record.value.schema), record.value, record.timestamp,
                             record.headers + AsHeaders(Extracted(hm, body, eval)))))
    {
      if !record.value.StructValue? {
        return Err(NotAStruct(Purpose));
      }
      var messageBody := extractObject(record);
      var headers := record.headers;
      var hm := headerFieldMap.value;
      var hx := headerFieldExtractor.value;
      var i := 0;
      while i < |hm|
        invariant 0 <= i <= |hm|
        invariant AllResolve(hm[..i], messageBody, eval)
        invariant headers == record.headers + AsHeaders(Extracted(hm[..i], messageBody, eval))
      {
        FindPresent(hm, i);
        var v := ExtractValue(hx, hm[i].0, messageBody, eval);
        if v.Err? {
          FirstUnresolvedIs(hm, i, messageBody, eval);
          return Err(v.error);
        }
        assert hm[..i + 1] == hm[..i] + [hm[i]];
        assert AsHeaders(Extracted(hm[..i + 1], messageBody, eval))
            == AsHeaders(Extracted(hm[..i], messageBody, eval)) + [Header(hm[i].0, v.value, None)];
        headers := headers + [Header(hm[i].0, v.value, None)];
        i := i + 1;
      }
      assert hm[..i] == hm;
      var key := ExtractValues(keyFieldExtractor.value, messageBody, eval);
      if key.Err? {
        return Err(key.error);
      }
      return Ok(Record(record.topic, None, Some(keySchema), MapValue(key.value), Some(record.value.schema),
                       record.value, record.timestamp, headers));
    }
  }
}
