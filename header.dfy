/**
 * `NestedValueToHeader`: appends one header per configured `name:path` entry,
 * evaluating each path with the JSON-path extractor on both the schemaless
 * and the schema-bound path. The key is kept; the key schema is dropped.
 */
module HeaderTransform {
  import opened Connect
  import opened Extraction

  const HeaderFieldMapping := "headerFieldMapping"
  const Purpose := "construct the record header from value"

  class NestedValueToHeader {
    var headerFieldList: Option<FieldMapping>
    var headerFieldMap: Option<FieldMapping>
    var headerFieldExtractor: Option<Extractor>

    /** The extractor is always the one bound to the current mapping. */
    ghost predicate Valid()
      reads this
    {
      && (headerFieldMap.Some? ==> WellFormed(headerFieldMap.value))
      && headerFieldExtractor == ExtractorFor(headerFieldMap, HeaderFieldMapping)
    }

    /** The Configured state: mapping and extractor bound. */
    ghost predicate Configured()
      reads this
    {
      Valid() && headerFieldMap.Some?
    }

    /** A new instance is Unconfigured: every field is null. */
    constructor ()
      ensures Valid() && !Configured()
      ensures headerFieldList == None
    {
      headerFieldList := None;
      headerFieldMap := None;
      headerFieldExtractor := None;
    }

    /**
     * Reads `headerFieldMapping`; an absent or empty list is a configuration
     * error that leaves the bound mapping as it was.
     */
    method Configure(props: Props) returns (r: Result<()>)
      requires Valid()
      requires HeaderFieldMapping in props ==> DistinctKeys(props[HeaderFieldMapping])
      modifies this
      ensures Valid()
      ensures headerFieldList == GetList(props, HeaderFieldMapping)
      ensures !IsSet(headerFieldList) ==>
        r == Err(ConfigError(HeaderFieldMapping)) && headerFieldMap == old(headerFieldMap)
      ensures IsSet(headerFieldList) ==>
        r == Ok(()) && headerFieldMap == headerFieldList && Configured()
    {
      headerFieldList := GetList(props, HeaderFieldMapping);
      if !IsSet(headerFieldList) {
        return Err(ConfigError(HeaderFieldMapping));
      }
      headerFieldMap := headerFieldList;
      headerFieldExtractor := Some(Extractor(headerFieldList.value, HeaderFieldMapping));
      return Ok(());
    }

    /**
     * A duplicate of the record's headers with one header per mapping entry
     * appended, in mapping order, each holding the value its path gives;
     * the first malformed path aborts with its error.
     */
    method GetHeaders(record: Record, messageValue: Val, eval: PathEval) returns (r: Result<seq<Header>>)
      requires Configured()
      ensures var m := headerFieldMap.value;
        && (AllResolve(m, messageValue, eval) ==>
              r == Ok(record.headers + AsHeaders(Extracted(m, messageValue, eval))))
        && (!AllResolve(m, messageValue, eval) ==>
              r == Err(ExtractionError(HeaderFieldMapping, m[FirstUnresolved(m, messageValue, eval)].0)))
    {
      var headers := record.headers;
      var m := headerFieldMap.value;
      var ex := headerFieldExtractor.value;
      var i := 0;
      while i < |m|
        invariant 0 <= i <= |m|
        invariant AllResolve(m[..i], messageValue, eval)
        invariant headers == record.headers + AsHeaders(Extracted(m[..i], messageValue, eval))
      {
        FindPresent(m, i);
        var v := ExtractValue(ex, m[i].0, messageValue, eval);
        if v.Err? {
          FirstUnresolvedIs(m, i, messageValue, eval);
          return Err(v.error);
        }
        assert m[..i + 1] == m[..i] + [m[i]];
        assert AsHeaders(Extracted(m[..i + 1], messageValue, eval))
            == AsHeaders(Extracted(m[..i], messageValue, eval)) + [Header(m[i].0, v.value, None)];
        headers := headers + [Header(m[i].0, v.value, None)];
        i := i + 1;
      }
      assert m[..i] == m;
      return Ok(headers);
    }

    /**
     * Schemaless path: the value must be a map; the headers are extended and
     * everything else is passed through, with null partition and key schema.
     */
    method ApplySchemaless(record: Record, eval: PathEval) returns (r: Result<Record>)
      requires Configured()
      ensures !record.value.MapValue? ==> r == Err(NotAMap(Purpose))
      ensures record.value.MapValue? ==> var m := headerFieldMap.value;
        && (AllResolve(m, record.value, eval) ==>
              r == Ok(Record(record.topic, None, None, record.key, record.valueSchema, record.value,
                             record.timestamp, record.headers + AsHeaders(Extracted(m, record.value, eval)))))
        && (!AllResolve(m, record.value, eval) ==>
              r == Err(ExtractionError(HeaderFieldMapping, m[FirstUnresolved(m, record.value, eval)].0)))
    {
      if !record.value.MapValue? {
        return Err(NotAMap(Purpose));
      }
      var headers := GetHeaders(record, record.value, eval);
      if headers.Err? {
        return Err(headers.error);
      }
      return Ok(Record(record.topic, None, None, record.key, record.valueSchema, record.value,
                       record.timestamp, headers.value));
    }

    /**
     * Schema-bound path: the value must be a struct; paths are evaluated on its
     * generic form, and the struct's own schema becomes the value schema.
     */
    method ApplyWithSchema(record: Record, extractObject: Record -> Val, eval: PathEval) returns (r: Result<Record>)
      requires Configured()
      ensures !record.value.StructValue? ==> r == Err(NotAStruct(Purpose))
      ensures record.value.StructValue? ==> var m, body := headerFieldMap.value, extractObject(record);
        && (AllResolve(m, body, eval) ==>
              r == Ok(Record(record.topic, None, None, record.key, Some(record.value.schema), record.value,
                             record.timestamp, record.headers + AsHeaders(Extracted(m, body, eval)))))
        && (!AllResolve(m, body, eval) ==>
              r == Err(ExtractionError(HeaderFieldMapping, m[FirstUnresolved(m, body, eval)].0)))
    {
      if !record.value.StructValue? {
        return Err(NotAStruct(Purpose));
      }
      var messageValue := extractObject(record);
      var headers := GetHeaders(record, messageValue, eval);
      if headers.Err? {
        return Err(headers.error);
      }
      return Ok(Record(record.topic, None, None, record.key, Some(record.value.schema), record.value,
                       record.timestamp, headers.value));
    }
  }
}
