/** Failure-compatible result types shared by the stream and the two decoders.
    Every decoder in this model fails fast: the first error aborts the whole load. */
module Wrappers {

  /** Why a load was aborted. */
  datatype Error =
    | ReadPastEnd          // a read needed more bytes than the stream holds
    | SeekPastEnd          // a seek or skip went beyond the end of the stream
    | Malformed(reason: string)  // a structural check of the format failed

  datatype Option<+T> = None | Some(value: T) {
    predicate IsFailure() { None? }

    function PropagateFailure<U>(): Option<U>
      requires None?
    {
      None
    }

    function Extract(): T
      requires Some?
    {
      value
    }
  }

  datatype Result<+T> = Ok(value: T) | Err(error: Error) {
    predicate IsFailure() { Err? }

    function PropagateFailure<U>(): Result<U>
      requires Err?
    {
      Err(error)
    }

    function Extract(): T
      requires Ok?
    {
      value
    }
  }

  /** The result of an operation that produces no value. */
  datatype Outcome = Pass | Fail(error: Error) {
    predicate IsFailure() { Fail? }

    function PropagateFailure<U>(): Result<U>
      requires Fail?
    {
      Err(error)
    }
  }
}
