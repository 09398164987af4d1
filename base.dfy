/** Values shared by every module: Go's `(value, error)` pairs and nilable errors. */
module Base {

  /** A Go `error`: only its message is observable. */
  datatype Error = Error(message: string)

  /** A nilable value; `None` is Go's `nil`. */
  datatype Option<+T> = None | Some(value: T)

  /** A Go `(value, err)` return where exactly one side is meaningful. */
  datatype Result<+T> = Ok(value: T) | Err(error: Error)

  /** The error part of a result, `nil` when there is none. */
  function ErrorOf<T>(r: Result<T>): (e: Option<Error>)
    ensures e.None? <==> r.Ok?
  {
    match r
    case Ok(_) => None
    case Err(e) => Some(e)
  }

  /** Concatenation is associative; stated once so that long traces need not be compared element by element. */
  lemma AppendAssociates<T>(a: seq<T>, b: seq<T>, c: seq<T>)
    ensures (a + b) + c == a + (b + c)
  {
  }
}
