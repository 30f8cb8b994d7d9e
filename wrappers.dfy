/** Failure-carrying result types shared by the model.

    The source reports recoverable failures as `Err` values and aborts the
    process (a Rust panic) on broken invariants. Both are explicit here:
    `Panic` and `Aborted` stand for the abort. */
module Wrappers {

  datatype Option<+T> = None | Some(value: T)

  /** A recoverable failure `Err`, or an abort of the whole process. */
  datatype Result<+T, +E> = Ok(value: T) | Err(error: E) | Panic

  /** The outcome of a call that either returns or aborts the process. */
  datatype Outcome<+T> = Returned(value: T) | Aborted
}
