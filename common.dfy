/** Option and Result values shared by every module of the uploader model. */
module Common {

  datatype Option<+T> = None | Some(value: T) {
    function GetOr(default: T): T {
      match this
      case Some(v) => v
      case None => default
    }
  }

  /** Why an uploader step stopped: an exception that escapes to the caller. */
  datatype Failure =
    | HttpStatus(status: int)      // raise_for_status() or an explicit raise on a bad status
    | NotFound(what: string)       // an explicit `raise Exception(...)` for a missing entity
    | IndexError                   // `xs[0]` or `s[-1]` on an empty list or string
    | TypeError                    // iterating or reading through a JSON null
    | Reraised(message: string)    // an exception caught and raised again

  datatype Result<+R> = Ok(value: R) | Err(error: Failure)

  /** `d.get(key)`. */
  function Get(m: map<string, string>, key: string): Option<string> {
    if key in m then Some(m[key]) else None
  }

  /** True for the status codes httpx reports as success. */
  predicate IsSuccess(status: int) {
    200 <= status < 300
  }
}
