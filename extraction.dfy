/**
 * Field mappings and the JSON-path field extractor the transforms bind to
 * them (`FieldListJsonPathExtractor`). The path evaluator itself belongs to a
 * library outside this model: every operation takes it as a parameter.
 */
module Extraction {
  import opened Connect

  /**
   * A parsed `name:path` list: each derived field name with the path
   * expression that locates its value in the message body, in configuration
   * order.
   */
  type FieldMapping = seq<(string, string)>

  /**
   * The JSON-path evaluator: `None` when the path expression is malformed,
   * `Some(Null)` when a well-formed path does not resolve against the body.
   */
  type PathEval = (string, Val) -> Option<Val>

  /** The configuration the transforms receive: option name to its list of entries. */
  type Props = map<string, seq<(string, string)>>

  /** `SimpleConfig.getList` for an option declared with default null. */
  function GetList(props: Props, option: string): Option<FieldMapping>
  {
    if option in props then Some(props[option]) else None
  }

  /** The list is neither null nor empty. */
  predicate IsSet(list: Option<FieldMapping>)
  {
    list.Some? && |list.value| > 0
  }

  /** A mapping as the transforms keep it once configured. */
  predicate WellFormed(m: FieldMapping)
  {
    |m| > 0 && DistinctKeys(m)
  }

  /** A `FieldListJsonPathExtractor`: its mapping and the option label it reports errors under. */
  datatype Extractor = Extractor(fieldMap: FieldMapping, configLabel: string)

  /** The extractor bound to a mapping, or none while the mapping is unbound (null). */
  function ExtractorFor(m: Option<FieldMapping>, configLabel: string): Option<Extractor>
  {
    match m
    case Some(fm) => Some(Extractor(fm, configLabel))
    case None => None
  }

  /** Every path of the mapping is well-formed for `eval`. */
  predicate AllResolve(m: FieldMapping, body: Val, eval: PathEval)
  {
    forall i :: 0 <= i < |m| ==> eval(m[i].1, body).Some?
  }

  /** The first entry, in mapping order, whose path is malformed. */
  function FirstUnresolved(m: FieldMapping, body: Val, eval: PathEval): (k: nat)
    requires !AllResolve(m, body, eval)
    ensures k < |m| && eval(m[k].1, body).None?
    ensures forall i :: 0 <= i < k ==> eval(m[i].1, body).Some?
  {
    if eval(m[0].1, body).None? then 0
    else
      assert forall i :: 0 <= i < |m| - 1 ==> m[1..][i] == m[i + 1];
      1 + FirstUnresolved(m[1..], body, eval)
  }

  /** Every field name with the value its path gives, in mapping order. */
  function Extracted(m: FieldMapping, body: Val, eval: PathEval): seq<(string, Val)>
    requires AllResolve(m, body, eval)
  {
    seq(|m|, i requires 0 <= i < |m| => (m[i].0, eval(m[i].1, body).value))
  }

  /**
   * Reference definition of evaluating a whole mapping: all values in order,
   * or the error for the first malformed path.
   */
  function Outcome(ex: Extractor, body: Val, eval: PathEval): Result<seq<(string, Val)>>
  {
    if AllResolve(ex.fieldMap, body, eval) then Ok(Extracted(ex.fieldMap, body, eval))
    else Err(ExtractionError(ex.configLabel, ex.fieldMap[FirstUnresolved(ex.fieldMap, body, eval)].0))
  }

  /** Header entries, one per name/value pair, added without a schema. */
  function AsHeaders(kv: seq<(string, Val)>): seq<Header>
  {
    seq(|kv|, i requires 0 <= i < |kv| => Header(kv[i].0, kv[i].1, None))
  }

  /**
   * `extractValue(fieldName, body)`: evaluates the path bound to `name`; with
   * distinct names that is the path of the entry carrying `name`, and a
   * malformed path fails under the extractor's label and the field name.
   */
  function ExtractValue(ex: Extractor, name: string, body: Val, eval: PathEval): (r: Result<Val>)
    requires Find(ex.fieldMap, name).Some?
    ensures r.Err? ==> r.error == ExtractionError(ex.configLabel, name)
    ensures DistinctKeys(ex.fieldMap) ==>
      forall i :: 0 <= i < |ex.fieldMap| && ex.fieldMap[i].0 == name ==>
        r == match eval(ex.fieldMap[i].1, body)
             case Some(v) => Ok(v)
             case None => Err(ExtractionError(ex.configLabel, name))
  {
    FindEntries(ex.fieldMap);
    match eval(Find(ex.fieldMap, name).value, body)
    case Some(v) => Ok(v)
    case None => Err(ExtractionError(ex.configLabel, name))
  }

  /** The first `n` fields of the mapping, extracted one after the other. */
  function ExtractPrefix(ex: Extractor, n: nat, body: Val, eval: PathEval): Result<seq<(string, Val)>>
    requires n <= |ex.fieldMap|
  {
    if n == 0 then Ok([])
    else
      var name := ex.fieldMap[n - 1].0;
      FindPresent(ex.fieldMap, n - 1);
      match ExtractPrefix(ex, n - 1, body, eval)
      case Err(e) => Err(e)
      case Ok(kv) =>
        match ExtractValue(ex, name, body, eval)
        case Err(e) => Err(e)
        case Ok(v) => Ok(kv + [(name, v)])
  }

  /**
   * `extractValues(body)`: with distinct names, every field name with its
   * value in mapping order when all paths are well-formed, and otherwise the
   * error of the first malformed path.
   */
  function ExtractValues(ex: Extractor, body: Val, eval: PathEval): (r: Result<seq<(string, Val)>>)
    ensures DistinctKeys(ex.fieldMap) ==> r == Outcome(ex, body, eval)
  {
    if DistinctKeys(ex.fieldMap) then
      ExtractPrefixMeaning(ex, |ex.fieldMap|, body, eval);
      assert ex.fieldMap[..|ex.fieldMap|] == ex.fieldMap;
      ExtractPrefix(ex, |ex.fieldMap|, body, eval)
    else
      ExtractPrefix(ex, |ex.fieldMap|, body, eval)
  }

  /** `FirstUnresolved` is the least index with a malformed path. */
  lemma FirstUnresolvedIs(m: FieldMapping, k: nat, body: Val, eval: PathEval)
    requires k < |m| && eval(m[k].1, body).None?
    requires forall i :: 0 <= i < k ==> eval(m[i].1, body).Some?
    ensures !AllResolve(m, body, eval) && FirstUnresolved(m, body, eval) == k
  {
  }

  /** Extending a mapping by one entry extends its reference outcome by that entry's value or error. */
  lemma OutcomeSnoc(m: FieldMapping, e: (string, string), configLabel: string, body: Val, eval: PathEval)
    ensures Outcome(Extractor(m + [e], configLabel), body, eval)
      == match Outcome(Extractor(m, configLabel), body, eval)
         case Err(x) => Err(x)
         case Ok(kv) =>
           match eval(e.1, body)
           case None => Err(ExtractionError(configLabel, e.0))
           case Some(v) => Ok(kv + [(e.0, v)])
  {
    var q := m + [e];
    assert forall i :: 0 <= i < |m| ==> q[i] == m[i];
    if !AllResolve(m, body, eval) {
      FirstUnresolvedIs(q, FirstUnresolved(m, body, eval), body, eval);
    } else if eval(e.1, body).None? {
      FirstUnresolvedIs(q, |m|, body, eval);
    } else {
      assert AllResolve(q, body, eval);
      assert Extracted(q, body, eval) == Extracted(m, body, eval) + [(e.0, eval(e.1, body).value)];
    }
  }

  /** Extracting a prefix of the mapping agrees with the reference definition on that prefix. */
  lemma {:induction false} ExtractPrefixMeaning(ex: Extractor, n: nat, body: Val, eval: PathEval)
    requires n <= |ex.fieldMap| && DistinctKeys(ex.fieldMap)
    ensures ExtractPrefix(ex, n, body, eval) == Outcome(Extractor(ex.fieldMap[..n], ex.configLabel), body, eval)
  {
    var m := ex.fieldMap;
    if n == 0 {
      assert Extracted(m[..0], body, eval) == [];
    } else {
      ExtractPrefixMeaning(ex, n - 1, body, eval);
      FindPresent(ex.fieldMap, n - 1);
      assert m[..n] == m[..n - 1] + [m[n - 1]];
      OutcomeSnoc(m[..n - 1], m[n - 1], ex.configLabel, body, eval);
    }
  }
}
