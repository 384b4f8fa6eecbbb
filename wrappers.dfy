/**
 * Option and Result, the two wrappers the model uses for C's NULL pointers and
 * for the fatal `g_error` paths of the daemon.
 */
module Wrappers {

  /** A value that may be missing: a NULL `char *`, an unset environment variable. */
  datatype Option<+T> = None | Some(value: T) {

    /** The wrapped value, or `default` when there is none. */
    function GetOr(default: T): T {
      if Some? then value else default
    }
  }

  /** The outcome of an operation that may stop the program with an error. */
  datatype Result<+T, +E> = Ok(value: T) | Err(error: E) {

    predicate IsFailure() {
      Err?
    }

    function PropagateFailure<U>(): Result<U, E>
      requires Err?
    {
      Err(error)
    }

    function Extract(): T
      requires Ok?
    {
      value
    }
  }
}
