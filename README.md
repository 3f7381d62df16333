# Nested-value key and header transforms

A Dafny model of two Kafka Connect single-message transforms:

- `NestedValueToKeysAndHeader` derives a new record key and appends new headers.
  Both come from a list of `name:path` entries over the record value.
- `NestedValueToHeader` only appends headers. It keeps the key and drops the key schema.

Each transform has a configure step and a per-record step. The per-record step has a
schemaless path (the value is a `java.util.Map`) and a schema-bound path (the value is a
Connect `Struct`).

Files:

- `connect.dfy` (module `Connect`): record values, schemas, headers and the record itself.
  It also holds the ordered string-keyed maps the transforms read and build: `Find`/`Get`
  model `Map.get`, which gives null for a missing key, and `Put` models `LinkedHashMap.put`.
- `extraction.dfy` (module `Extraction`): field mappings and the `FieldListJsonPathExtractor`
  bound to them.
  - The JSON-path evaluator is a parameter `eval`. It gives `None` for a malformed path and
    `Some(Null)` for a path that does not resolve.
  - `ExtractValue` and `ExtractValues` model `extractValue` and `extractValues`.
  - `AllResolve`, `FirstUnresolved` and `Extracted` are the reference definitions that the
    transforms' contracts are stated in.
- `header.dfy` (module `HeaderTransform`): class `NestedValueToHeader`.
- `keys_and_header.dfy` (module `KeysAndHeaderTransform`): class `NestedValueToKeysAndHeader`.
  It also holds the flat lookup `FlatKey` that the schemaless path uses for keys and headers.

An instance is Unconfigured while its mappings (`headerFieldMap`, and `keyFieldMap` in
`NestedValueToKeysAndHeader`) are null (`None`); its raw lists can already be set, because
`configure` assigns them before it checks them. `NestedValueToHeader` has one other state,
Configured, in which its mapping and extractor are bound. `NestedValueToKeysAndHeader` has
two others:

- Configured: both mappings and both extractors are bound.
- Key-only: the key mapping and its extractor are bound and the header mapping is null. A
  `configure` with a valid key list and no header list leaves a never-configured instance in
  this state. Of the per-record methods, only `ApplySchemaless` is described in it: it derives
  the key and adds no headers.

`Valid()` ties each extractor to its mapping. Exceptions are modelled as `Err` values:

- `ConfigException` is `ConfigError`.
- A failed `requireMap` or `requireStruct` is `NotAMap` or `NotAStruct`.
- A malformed path is `ExtractionError`.

Details of the code that the model keeps:

- Both transforms pass a null partition to `newRecord`.
- On the schema-bound path, the value schema becomes the struct's own schema.
- `NestedValueToHeader` uses the JSON-path extractor on its schemaless path too, not a flat lookup.
- `NestedValueToHeader` sets the key schema to null.
- `NestedValueToKeysAndHeader.configure` binds the key mapping before it checks the header
  list. A missing header list therefore leaves the new key mapping bound and the header
  mapping as it was. On an instance never configured before, the schemaless path then skips
  the headers, because of its `headerFieldMap != null` guard. On an instance configured
  before, it keeps appending headers from the earlier header mapping next to the new key.

## Model

| member | source | states |
|---|---|---|
| `Connect.Put` | src/main/java/io/confluent/connect/custom/transforms/NestedValueToKeysAndHeader.java:71-74 | `keyData.put(k, v)`: afterwards `k` maps to `v`, and every other key keeps its value |
| `Connect.PutAbsent` | src/main/java/io/confluent/connect/custom/transforms/NestedValueToKeysAndHeader.java:71-74 | putting a key the map does not hold appends exactly one entry at the end, so the key keeps insertion order |
| `Connect.FindEntry` | src/main/java/io/confluent/connect/custom/transforms/NestedValueToKeysAndHeader.java:73 | in a map with distinct keys, `get` of an entry's key returns that entry's value |
| `Connect.FindEntries` | src/main/java/io/confluent/connect/custom/transforms/NestedValueToKeysAndHeader.java:73 | in a map with distinct keys, every entry is found under its own key |
| `Connect.Get` | src/main/java/io/confluent/connect/custom/transforms/NestedValueToKeysAndHeader.java:73 | `value.get(path)`: in a map with distinct keys it gives the value of the entry whose key is `path`, and null when no entry has that key |
| `Connect.FindPresent` | src/main/java/io/confluent/connect/custom/transforms/NestedValueToHeader.java:63 | every name of a mapping is found in it, so `extractValue` on a name from the mapping's own iteration always finds a path |
| `Connect.FindAbsent` | src/main/java/io/confluent/connect/custom/transforms/NestedValueToKeysAndHeader.java:73 | a key that no entry carries is not found |
| `Extraction.FirstUnresolved` | src/main/java/io/confluent/connect/custom/transforms/NestedValueToHeader.java:62-64 | the entry whose malformed path raises the error is the first malformed one in mapping order: every earlier path is well-formed |
| `Extraction.FirstUnresolvedIs` | src/main/java/io/confluent/connect/custom/transforms/NestedValueToHeader.java:62-64 | a malformed path at `k`, with every earlier path well-formed, means the mapping does not all resolve and `k` is the failing entry |
| `Extraction.ExtractValue` | src/main/java/io/confluent/connect/custom/transforms/NestedValueToHeader.java:63 | `extractValue(name, body)`: with distinct names it evaluates the path of the entry carrying `name`, giving its value; a malformed path fails with the extractor's label and that field name |
| `Extraction.OutcomeSnoc` | src/main/java/io/confluent/connect/custom/transforms/NestedValueToKeysAndHeader.java:88-90 | one more mapping entry adds its value at the end, or stops with its error; an earlier error is kept |
| `Extraction.ExtractPrefixMeaning` | src/main/java/io/confluent/connect/custom/transforms/NestedValueToKeysAndHeader.java:92 | extracting the first `n` fields one after the other gives their values in mapping order, or the error of the first malformed path among them |
| `Extraction.ExtractValues` | src/main/java/io/confluent/connect/custom/transforms/NestedValueToKeysAndHeader.java:92 | `extractValues(body)`: with distinct names, every field name with its value, in mapping order, when all paths are well-formed, and otherwise the error of the first malformed one |
| `KeysAndHeaderTransform.FlatKey` | src/main/java/io/confluent/connect/custom/transforms/NestedValueToKeysAndHeader.java:71-74 | the derived key's field names are exactly the mapping's names, in mapping order, and distinct when the mapping's are |
| `KeysAndHeaderTransform.FlatKeyLookup` | src/main/java/io/confluent/connect/custom/transforms/NestedValueToKeysAndHeader.java:71-74 | in the derived key, each field name maps to the top-level value at its path string, and to null when the value has no such key |
| `KeysAndHeaderTransform.FlatLookupIsShallow` | src/main/java/io/confluent/connect/custom/transforms/NestedValueToKeysAndHeader.java:73-77 | the schemaless lookup is one level deep: a dotted path `a.b` does not reach `b` inside `a`, so it gives null |
| `KeysAndHeaderTransform.KeyAndHeaderScenario` | src/main/java/io/confluent/connect/custom/transforms/NestedValueToKeysAndHeader.java:68-81 | `id:identifier` and `src:source` on `{identifier: abc123, source: svcA}` give the key `{id: abc123}` and the one header `src = svcA` |
| `KeysAndHeaderTransform.NestedValueToKeysAndHeader.constructor` | src/main/java/io/confluent/connect/custom/transforms/NestedValueToKeysAndHeader.java:21-44 | a new instance is Unconfigured: its lists, mappings and extractors are null, and its key schema is the fixed map schema |
| `KeysAndHeaderTransform.NestedValueToKeysAndHeader.Configure` | src/main/java/io/confluent/connect/custom/transforms/NestedValueToKeysAndHeader.java:47-65 | both lists are read first. An absent or empty key list fails with the key option's error and binds nothing, even when the header list is missing too. Otherwise the key mapping and its extractor are bound. Then an absent or empty header list fails with the header option's error and leaves the header mapping as it was. Otherwise both are bound: the Configured state |
| `KeysAndHeaderTransform.NestedValueToKeysAndHeader.ApplySchemaless` | src/main/java/io/confluent/connect/custom/transforms/NestedValueToKeysAndHeader.java:68-81 | a non-map value fails. The key becomes the flat-lookup map of the key fields. When a header mapping is bound, the record's headers are followed by one flat-lookup header per entry, in order; otherwise they are unchanged. The partition and key schema become null. Topic, value schema, value and timestamp pass through |
| `KeysAndHeaderTransform.NestedValueToKeysAndHeader.ApplyWithSchema` | src/main/java/io/confluent/connect/custom/transforms/NestedValueToKeysAndHeader.java:84-93 | a non-struct value fails. A malformed header path fails first, then a malformed key path. Otherwise: the headers are the original headers followed by the extracted header fields in mapping order; the key is `extractValues(body)` with the fixed string-to-optional-string map schema; the value is kept, the struct's own schema becomes the value schema, and the partition is null |
| `HeaderTransform.NestedValueToHeader.constructor` | src/main/java/io/confluent/connect/custom/transforms/NestedValueToHeader.java:28-30 | a new instance is Unconfigured: its list, mapping and extractor are null |
| `HeaderTransform.NestedValueToHeader.Configure` | src/main/java/io/confluent/connect/custom/transforms/NestedValueToHeader.java:33-43 | an absent or empty `headerFieldMapping` fails with a configuration error and leaves the mapping as it was. Otherwise the mapping and its extractor are bound: the Configured state |
| `HeaderTransform.NestedValueToHeader.GetHeaders` | src/main/java/io/confluent/connect/custom/transforms/NestedValueToHeader.java:60-66 | the record's headers are an unchanged prefix. They are followed by exactly one header per mapping entry, in mapping order, each holding `extractValue(name, body)`. A malformed path fails with the first such entry's error |
| `HeaderTransform.NestedValueToHeader.ApplySchemaless` | src/main/java/io/confluent/connect/custom/transforms/NestedValueToHeader.java:46-50 | a non-map value fails. The headers are extended with extractor values computed over the map itself. The key, topic, value schema, value and timestamp pass through; the partition and key schema become null |
| `HeaderTransform.NestedValueToHeader.ApplyWithSchema` | src/main/java/io/confluent/connect/custom/transforms/NestedValueToHeader.java:53-58 | a non-struct value fails. The headers are extended with extractor values over the struct's generic form. The key is kept; the partition and key schema become null. The value is kept and the struct's own schema becomes the value schema |

## Left out

- `parseMappings` (in `BaseNestedValue`) is not part of this model. The configured lists are
  taken as already-split `(name, path)` pairs. That a list's names are distinct is a
  precondition of `Configure`, as `parseMappings` returns a `java.util.Map`. It applies only
  to a list that `configure` goes on to parse. In `NestedValueToKeysAndHeader`, the header
  list's names must be distinct only once the key list has passed its check. A header list
  with a repeated name and no key list is accepted and fails with the key option's error.
- `FieldListJsonPathExtractor`'s path evaluation is not part of this model. It is the
  parameter `eval`.
- `extractObject` (in `BaseNestedValue`), the struct-to-nested-value conversion, is not part
  of this model. It is the parameter `extractObject`.
- The dispatch between the schemaless and schema-bound paths (in `BaseNestedValue`) is not part
  of this model. Both per-record methods are modelled; the value's variant decides which
  `require*` check passes.
- The error label for the key mapping comes from `NestedValueToKeys.ConfigName`, which is not
  part of this model. It is taken to be the same `keyFieldMapping` string.
- Exception message text, `config()` and `CONFIG_DEF` are left out. `SimpleConfig` is reduced
  to looking an option up in a map. Each header keeps its schema; the added headers carry the
  null schema (`None`) that the source passes to `headers.add`.
- The `Headers` collection is a sequence value, so `duplicate()` is a copy and `add` is an
  append. The model does not capture the aliasing of the mutable `ConnectHeaders` object. The
  input record's headers cannot change because they are a value.
- A `java.util.Map` is an ordered list of entries. Lookup takes the first entry with the key,
  which is its only entry in any real map.
- Concurrency and sharing of one transform instance between threads are left out; the source
  has no synchronization.
- `KeysAndHeaderTransform.NestedValueToKeysAndHeader.ApplySchemaless`,
  `KeysAndHeaderTransform.NestedValueToKeysAndHeader.ApplyWithSchema`,
  `HeaderTransform.NestedValueToHeader.GetHeaders`,
  `HeaderTransform.NestedValueToHeader.ApplySchemaless` and
  `HeaderTransform.NestedValueToHeader.ApplyWithSchema` require the mappings they dereference
  to be bound. The source would throw a `NullPointerException` on an instance whose mapping
  is null, and the model does not describe that case. An order of checks is lost with it. On
  every per-record path the shape check comes first: `requireMap` or `requireStruct` runs
  before any mapping is dereferenced. So an instance with a null mapping that is given a
  value of the wrong shape throws `DataException`, not `NullPointerException`, in all four
  per-record methods:
  - `NestedValueToKeysAndHeader.applySchemaless`: `requireMap` (line 69) comes before
    `keyFieldMap` (line 72).
  - `NestedValueToKeysAndHeader.applyWithSchema`: `requireStruct` (line 85) comes before
    `headerFieldMap` (line 88). This case is reachable in the key-only state.
  - `NestedValueToHeader.applySchemaless`: `requireMap` (line 47) comes before
    `headerFieldMap` in `getHeaders` (line 62).
  - `NestedValueToHeader.applyWithSchema`: `requireStruct` (line 54) comes before
    `headerFieldMap` in `getHeaders` (line 62).
