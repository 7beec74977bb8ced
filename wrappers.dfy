/** Failure-compatible result types shared by the lexer, the parser and the scope vault. */
module Wrappers {

  datatype Option<+T> = None | Some(value: T)

  /** Why a run stops: a diagnostic handed to the error reporter (which renders it and ends
      the process), or a panic: an `unreachable!`, an `unwrap` of `None` or `Err`, or a
      `usize` addition that overflows. */
  datatype Failure =
    | Report(message: string, start: nat, end: nat)
    | Panic(message: string)

  datatype Result<+T> = Ok(value: T) | Err(error: Failure) {
    predicate IsFailure() { Err? }

    function PropagateFailure<U>(): Result<U>
      requires Err?
    {
      Err(error)
    }

    function Extract(): T
      requires Ok?
    {
      value
    }
  }
}
