/** Values exchanged between the poller, its handlers and the remote collection API. */
module Values {

  /** An optional value; None plays the part of Python's None for configuration fields. */
  datatype Option<+T> = None | Some(value: T)

  /** The outcome of an operation that may raise. */
  datatype Result<+T, +E> = Success(value: T) | Failure(error: E)

  /** A decoded JSON value as the HTTP client returns it (numbers are integers here).
      JNull is Python's None. */
  datatype Json =
    | JNull
    | JBool(b: bool)
    | JNum(n: int)
    | JStr(s: string)
    | JArr(elems: seq<Json>)
    | JObj(members: map<string, Json>)
}
