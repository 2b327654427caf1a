/**
 * Result and option types shared by the whole model.
 *
 * goDASH ends the process in two ways: deliberately (a message followed by
 * `os.Exit(3)`, `log.Fatal` or `StopApp`, all written `Fatal` here) and through
 * Go runtime panics (an index out of range, an integer division by zero,
 * written `Panic` here). Members that can reach either return a `Result`.
 */
module Wrappers {

  datatype Option<T> = None | Some(value: T)

  datatype Failure = Fatal(reason: string) | Panic(reason: string)

  datatype Result<T> = Ok(value: T) | Err(failure: Failure)

  /** The runtime panic of an out-of-range slice or index expression. */
  const IndexOutOfRange: Failure := Panic("index out of range")

  /** The runtime panic of an integer division or remainder by zero. */
  const DivideByZero: Failure := Panic("integer divide by zero")

  /** The runtime panic of `make` with a negative length. */
  const MakeSliceLen: Failure := Panic("makeslice: len out of range")
}
