/** Decoded JSON values, as Go's encoding/json hands them to the middleware
    client (map[string]interface{} with bool, float64, string, []interface{}
    and nested maps), and the error-or-value shapes used throughout. */
module Json {

  datatype Json =
    | JNull
    | JBool(b: bool)
    | JNumber(n: real)
    | JString(s: string)
    | JList(items: seq<Json>)
    | JObject(fields: map<string, Json>)

  /** A decoded JSON object: a request or a response of the middleware protocol. */
  type JsonMap = map<string, Json>

  /** A Go `error` that may be nil. */
  datatype Option<T> = None | Some(value: T)

  /** A Go `(value, error)` pair where exactly one side is meaningful. */
  datatype Result<T> = Ok(value: T) | Err(error: string)
}
