/** The Python values the ETL handles: cells of a DataFrame, fields of a
    JSON record, and the exceptions that escape from the pipeline's steps. */
module PyValues {

  datatype Option<+T> = None | Some(value: T)

  /** A cell value. `Null` stands for everything `pd.isna` reports as missing
      (None, NaN, NaT). `Number` stands for the other scalars (int, float,
      bool) and `Time` for a pandas Timestamp, here an instant on an integer
      time line. */
  datatype Value =
    | Null
    | Str(s: string)
    | Dict(fields: map<string, Value>)
    | Number(n: int)
    | Time(instant: int)

  /** The sentinel the flattener substitutes for anything it cannot read. */
  const Unknown: Value := Str("Unknown")

  /** One record of the job list as the API returns it (a JSON object). */
  type Record = map<string, Value>

  /** The exceptions that can leave the modelled code. */
  datatype Exception =
    | ValueError       // raised by the ETL constructor on a missing setting
    | KeyError(key: string)  // a DataFrame column that does not exist
    | AttributeError   // `.get` called on a parsed JSON value that is not an object

  /** The outcome of a Python call: it returns a value or raises. */
  datatype Outcome<+T> = Ok(value: T) | Raised(exc: Exception)

  /** Python truthiness of an optional string: None and "" are falsy. */
  predicate Truthy(s: Option<string>) {
    s.Some? && s.value != ""
  }

  /** The text an f-string gives for an optional string. */
  function Format(s: Option<string>): string {
    match s
    case None => "None"
    case Some(t) => t
  }
}
