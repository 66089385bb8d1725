/**
 * The persisted record and the shape check `load_state` applies to it. File
 * access and JSON decoding are not modelled: what the decoder produced is an
 * input, a `Source`.
 */
module Storage {

  /** A decoded JSON value. */
  datatype Json =
    | JNull
    | JBool(b: bool)
    | JNumber(n: real)
    | JString(s: string)
    | JArray(items: seq<Json>)
    | JObject(fields: map<string, Json>)

  /** The top-level record: a JSON object. */
  type State = map<string, Json>

  /** What reading the data file gave. */
  datatype Source =
    | Missing                       // `os.path.exists` is false
    | Unreadable                    // `open` or the read raised `OSError`
    | Malformed                     // `json.load` raised `JSONDecodeError`
    | Parsed(record: State)         // the file held a JSON object

  /** The record has a `budget` key and a list under `expenses`. */
  predicate WellShaped(s: State) {
    "budget" in s && "expenses" in s && s["expenses"].JArray?
  }

  /** `default_state()`: budget 0 and no expenses. */
  function DefaultState(): (s: State)
    ensures WellShaped(s)
    ensures s["budget"] == JNumber(0.0) && s["expenses"] == JArray([])
    ensures s.Keys == {"budget", "expenses"}
  {
    map["budget" := JNumber(0.0), "expenses" := JArray([])]
  }

  /**
   * `load_state`: the decoded record when it passes the shape check, the
   * default record in every other case.
   */
  function LoadState(src: Source): (s: State)
    ensures WellShaped(s)
    ensures src.Parsed? && WellShaped(src.record) ==> s == src.record
    ensures !(src.Parsed? && WellShaped(src.record)) ==> s == DefaultState()
  {
    match src
    case Parsed(record) =>
      if "budget" !in record || "expenses" !in record || !record["expenses"].JArray? then DefaultState()
      else record
    case _ => DefaultState()
  }

  /** A record that `load_state` returned passes the check again unchanged. */
  lemma LoadStateStable(src: Source)
    ensures LoadState(Parsed(LoadState(src))) == LoadState(src)
  {
  }

  /** `{"budget": 5}` has no `expenses` key, so the default record replaces it. */
  lemma MissingExpensesGivesDefault()
    ensures LoadState(Parsed(map["budget" := JNumber(5.0)])) == DefaultState()
  {
  }

  /** An `expenses` value that is not a list also gives the default record. */
  lemma NonListExpensesGivesDefault(budget: Json, expenses: Json)
    requires !expenses.JArray?
    ensures LoadState(Parsed(map["budget" := budget, "expenses" := expenses])) == DefaultState()
  {
  }
}
