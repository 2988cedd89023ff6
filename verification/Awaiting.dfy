/** What the per-worker sessions share: awaits that may fail or be dropped, and elapsed time. */
module Awaiting {
  import opened Wrappers

  /** How a piece of an iteration ended; `Dropped` is the caller giving up on it at an await. */
  datatype Step<+T> = Ready(value: T) | Failed | Dropped

  function Since(now: nat, t: Option<nat>): Option<nat> {
    match t
    case None => None
    case Some(earlier) => Some(if now >= earlier then now - earlier else 0)
  }
}
