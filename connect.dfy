/**
 * The slice of the Kafka Connect data model that the two transforms touch:
 * record values, schemas, headers and the record itself, plus the ordered
 * string-keyed maps (`java.util.Map` / `LinkedHashMap`) the transforms read
 * and build.
 */
module Connect {

  datatype Option<T> = None | Some(value: T)

  /** The exceptions the transforms raise, as values. */
  datatype Error =
    /** `ConfigException`: a required mapping list is absent or empty. */
    | ConfigError(option: string)
    /** `requireMap` refused a schemaless value that is not a map. */
    | NotAMap(purpose: string)
    /** `requireStruct` refused a schema-bound value that is not a struct. */
    | NotAStruct(purpose: string)
    /** The path expression bound to `fieldName` is malformed. */
    | ExtractionError(configLabel: string, fieldName: string)

  datatype Result<T> = Ok(value: T) | Err(error: Error)

  datatype Schema =
    | StringSchema(optional: bool)
    | MapSchema(keySchema: Schema, valueSchema: Schema, name: string, doc: string)
    | StructSchema(name: string, fields: seq<(string, Schema)>)

  /**
   * A record value. `MapValue` is a `java.util.Map` whose entries are listed
   * in iteration order; `StructValue` is a Connect `Struct` with its own schema.
   */
  datatype Val =
    | Null
    | Str(s: string)
    | Num(n: int)
    | Bool(b: bool)
    | Array(items: seq<Val>)
    | MapValue(entries: seq<(string, Val)>)
    | StructValue(schema: Schema, fields: seq<(string, Val)>)

  /** One entry of a record's (multi-valued) header collection. */
  datatype Header = Header(key: string, value: Val, schema: Option<Schema>)

  datatype Record = Record(
    topic: string,
    kafkaPartition: Option<int>,
    keySchema: Option<Schema>,
    key: Val,
    valueSchema: Option<Schema>,
    value: Val,
    timestamp: Option<int>,
    headers: seq<Header>)

  function Keys<V>(s: seq<(string, V)>): seq<string>
  {
    seq(|s|, i requires 0 <= i < |s| => s[i].0)
  }

  /** No key occurs twice, as in a `java.util.Map`. */
  predicate DistinctKeys<V>(s: seq<(string, V)>)
  {
    forall i, j :: 0 <= i < j < |s| ==> s[i].0 != s[j].0
  }

  /** The value bound to `k`, looked up in iteration order. */
  function Find<V>(s: seq<(string, V)>, k: string): Option<V>
  {
    if s == [] then None
    else if s[0].0 == k then Some(s[0].1)
    else Find(s[1..], k)
  }

  /** `Map.get`: the value bound to `k`, or null when `k` is not a key. */
  function Get(entries: seq<(string, Val)>, k: string): (r: Val)
    ensures DistinctKeys(entries) ==>
      forall i :: 0 <= i < |entries| && entries[i].0 == k ==> r == entries[i].1
    ensures (forall i :: 0 <= i < |entries| ==> entries[i].0 != k) ==> r == Null
  {
    FindEntries(entries);
    FindAbsent(entries, k);
    match Find(entries, k)
    case Some(v) => v
    case None => Null
  }

  /**
   * `LinkedHashMap.put`: an existing key keeps its position and takes the new
   * value; a new key is appended.
   */
  function Put<V>(s: seq<(string, V)>, k: string, v: V): (r: seq<(string, V)>)
    ensures Find(r, k) == Some(v)
    ensures forall k' :: k' != k ==> Find(r, k') == Find(s, k')
  {
    if s == [] then [(k, v)]
    else if s[0].0 == k then [(k, v)] + s[1..]
    else
      var rest := Put(s[1..], k, v);
      assert ([s[0]] + rest)[1..] == rest;
      [s[0]] + rest
  }

  lemma {:induction false} FindPresent<V>(s: seq<(string, V)>, i: nat)
    requires i < |s|
    ensures Find(s, s[i].0).Some?
  {
    if s[0].0 != s[i].0 {
      FindPresent(s[1..], i - 1);
    }
  }

  /** With distinct keys, every entry is found under its own key. */
  lemma {:induction false} FindEntry<V>(s: seq<(string, V)>, i: nat)
    requires i < |s| && DistinctKeys(s)
    ensures Find(s, s[i].0) == Some(s[i].1)
  {
    if i > 0 {
      assert s[0].0 != s[i].0;
      FindEntry(s[1..], i - 1);
    }
  }

  /** With distinct keys, every entry of the map is found under its own key. */
  lemma FindEntries<V>(s: seq<(string, V)>)
    ensures DistinctKeys(s) ==> forall i :: 0 <= i < |s| ==> Find(s, s[i].0) == Some(s[i].1)
  {
    if DistinctKeys(s) {
      forall i | 0 <= i < |s|
        ensures Find(s, s[i].0) == Some(s[i].1)
      {
        FindEntry(s, i);
      }
    }
  }

  /** A key that no entry carries is not found. */
  lemma {:induction false} FindAbsent<V>(s: seq<(string, V)>, k: string)
    ensures (forall i :: 0 <= i < |s| ==> s[i].0 != k) ==> Find(s, k) == None
  {
    if s != [] {
      FindAbsent(s[1..], k);
      assert forall i :: 0 <= i < |s| - 1 ==> s[1..][i] == s[i + 1];
    }
  }

  /** Putting a key the map does not hold appends one entry and moves nothing. */
  lemma {:induction false} PutAbsent<V>(s: seq<(string, V)>, k: string, v: V)
    requires forall i :: 0 <= i < |s| ==> s[i].0 != k
    ensures Put(s, k, v) == s + [(k, v)]
  {
    if s != [] {
      PutAbsent(s[1..], k, v);
      assert [s[0]] + (s[1..] + [(k, v)]) == s + [(k, v)];
    }
  }
}
