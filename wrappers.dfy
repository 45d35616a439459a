/** Optional values: the model's stand-in for JavaScript's `undefined` / `null`. */
module Wrappers {

  datatype Option<+T> = None | Some(value: T) {

    /** The value, or `default` when absent (JavaScript's `x ?? default`). */
    function GetOr(default: T): (r: T)
      ensures Some? ==> r == value
      ensures None? ==> r == default
    {
      match this
      case Some(v) => v
      case None => default
    }
  }
}

/** Outcomes of the upstream HTTP calls, which the model takes as inputs instead of performing them. */
module Http {

  import opened Wrappers

  /**
   * What a `fetch` followed by `res.json()` produced: either something threw
   * (network failure, or a body that is not JSON where the code parses it),
   * or a response with its `ok` flag and its parsed body, `None` standing for
   * a JSON value of the wrong shape (such as `null`).
   */
  datatype Upstream<T> = Threw | Response(ok: bool, body: Option<T>)

  /** How an async function settles: it rejects (an exception escapes) or resolves to a value. */
  datatype Settled<T> = Rejected | Resolved(value: T)
}
