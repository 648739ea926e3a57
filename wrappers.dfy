/** Option and Result values, and the Python exceptions the modelled code can raise. */
module Wrappers {

  /** Python's `None` or a value. */
  datatype Option<+T> = None | Some(value: T)

  /** The outcome of a Python call: a value, or the exception it raised. */
  datatype Result<+T> = Ok(value: T) | Err(error: PyError)

  /**
   * The exceptions that the modelled code raises or catches; ClientError stands for
   * any failure of the HTTP client to reach the server.
   */
  datatype PyError =
    | ValueError(message: string)
    | TypeError
    | KeyError(key: string)
    | StopIteration
    | RuntimeError(message: string)
    | AttributeError
    | ClientError

  /** Python's `str()` of an optional string, as an f-string renders it: `None` becomes "None". */
  function FormatOptional(s: Option<string>): (r: string)
    ensures s.Some? ==> r == s.value
    ensures s.None? ==> r == "None"
  {
    match s
    case Some(v) => v
    case None => "None"
  }

  /** Python's `s or ''` for an optional string: `None` and the empty string both give "". */
  function OrEmpty(s: Option<string>): (r: string)
    ensures s.None? ==> r == ""
    ensures s.Some? ==> r == s.value
  {
    match s
    case Some(v) => v
    case None => ""
  }
}
