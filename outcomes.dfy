/** Wrappers for the two kinds of "maybe" the application handles:
    a state slot that may still hold the empty object `{}` (Option), and
    the settled result of a request to the remote service (Outcome). */
module Outcomes {

  /** A slot that holds a value, or the empty object `{}` it starts with. */
  datatype Option<+T> = None | Some(value: T)

  /** How a request to the remote service settled: resolved with the
      server's value, or rejected (the rejection reason is only logged,
      so it carries nothing). */
  datatype Outcome<+T> = Resolved(value: T) | Rejected
}
