/**
 * The ways the byte-drawer core can fail. Each Python exception the core raises is one
 * variant of `Error`; `NonTermination` stands for the one input on which the stream
 * decoder's main loop never returns.
 */
module Failures {

  datatype Error =
    | ValueError         // encoder range check, a token that is not hexadecimal, pen-down preconditions
    | IndexError         // a command handler reads a token past the end of the stream
    | AttributeError     // a move or clip step reads the position before any position exists
    | ZeroDivisionError  // the slope of a vertical crossing
    | RuntimeError       // the edge-point computation matched none of its cases
    | NonTermination     // the main loop revisits the same position with the same state forever

  datatype Option<+T> = None | Some(value: T)

  /** A value, or the error that replaced it; usable with `:-`. */
  datatype Result<+T> = Ok(value: T) | Err(error: Error) {

    predicate IsFailure() {
      Err?
    }

    function PropagateFailure<U>(): Result<U>
      requires Err?
    {
      Err(error)
    }

    function Extract(): T
      requires Ok?
    {
      value
    }
  }
}
