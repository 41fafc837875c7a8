/**
 * Values shared by every page model: optional values (a JSON field that may be
 * absent or null) and the outcome of one `fetch` call, which the pages only ever
 * inspect as "ok with a body", "answered but not ok", or "threw".
 */
module Outcomes {

  datatype Option<T> = None | Some(value: T) {
    function GetOr(default: T): T {
      match this
      case Some(v) => v
      case None => default
    }
  }

  /** The result of awaiting one `fetch`: `response.ok` with its parsed body,
      a response whose `ok` is false (with its HTTP status), or a rejected promise. */
  datatype Response<T> = Ok(body: T) | NotOk(status: int) | Threw

  /** What `await response.json()` yields: a value, the JSON `null`, or a parse error. */
  datatype Body<T> = Value(v: T) | Null | Unreadable
}
