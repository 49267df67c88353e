/** Values, keys and failure carriers shared by every part of the key-value store. */
module KvTypes {

  /** Keys are text. */
  type Key = string

  /** Transaction ids. The store mints them from a counter; uniqueness is what matters. */
  type TxId = nat

  /** The JSON-compatible values a store holds (floating-point numbers are not modelled). */
  datatype Json =
    | JNull
    | JBool(b: bool)
    | JInt(i: int)
    | JStr(s: string)
    | JArray(items: seq<Json>)
    | JObject(members: map<string, Json>)

  /** The built-in exceptions the transaction manager and the storage backends raise. */
  datatype Fault = KeyError | ValueError | RuntimeError

  datatype Option<+T> = None | Some(value: T)

  datatype Result<+T, +E> = Success(value: T) | Failure(error: E)

  /** Outcome of an operation that returns nothing (Python `None`) or raises. */
  datatype Outcome<+E> = Pass | Fail(error: E)
}
