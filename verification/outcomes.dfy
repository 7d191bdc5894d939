/** Values that stand for Python's `None`, raised exceptions and statements that may raise. */
module Outcomes {

  /** A value that may be absent (Python `None`). */
  datatype Option<+T> = None | Some(value: T) {

    /** The value, or `default` when absent (Python `d.get(key, default)`). */
    function GetOr(default: T): T {
      match this
      case Some(v) => v
      case None => default
    }
  }

  /** A raised exception, identified by its string form `str(e)`. */
  datatype Exc = Exc(msg: string)

  /** What a Python expression yields: a value, or the exception it raises. */
  datatype Result<+T> = Ok(value: T) | Raised(exc: Exc)

  /** What a Python statement run for its effect does: completes, or raises. */
  datatype Outcome = Pass | Fail(exc: Exc)

  /** The exception `d[key]` raises for a missing key; its `str()` is the quoted key. */
  function KeyError(key: string): Exc {
    Exc("'" + key + "'")
  }
}
