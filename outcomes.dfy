/** Failure-carrying results shared by every stage of the synthesizer. */
module Outcomes {

  datatype Option<+T> = None | Some(value: T)

  /** The exceptions the library throws; each names the condition the source checks. */
  datatype Fault =
    | CouldNotParse(c: char)            // tokenizer met a character it cannot place
    | OutOfBounds(pos: int)             // the store was asked for a slot outside it
    | LengthHasFlag80(length: int)      // a phoneme length with bit 7 set was stored
    | BufferOverflow(want: int, size: int) // the output writer ran past its buffer
    | NotATriple(pos: int)              // the renderer read a triple past the list or in a hole
    | InvalidLength(size: int)          // an output buffer of negative size was asked for

  datatype Result<+T> = Ok(value: T) | Err(fault: Fault) {
    predicate IsFailure() { Err? }
    function PropagateFailure<U>(): Result<U>
      requires Err?
    {
      Err(fault)
    }
    function Extract(): T
      requires Ok?
    {
      value
    }
  }
}
