/** Failure values of the board elaboration and the wrappers that carry them. */
module Faults {

  datatype Option<+T> = None | Some(value: T)

  /** The exceptions that stop elaboration of the board, one per raising site. */
  datatype Fault =
    | NotImplemented(laneCount: nat)          // unsupported lane count in the settings chain
    | KeyError(tag: string)                   // unknown PHY family tag in the dispatch tables
    | ConstraintError(padIndex: nat)          // a lane pad pair the platform does not have
    | TypeError                               // reduce() of an empty lane list
    | IndexError(entry: int)                  // an RX order entry outside the PHY list
    | NonIntegralClock(hz: nat, divisor: nat) // a derived clock that is not a whole number of Hz

  /** The outcome of one elaboration step; `:-` propagates the first fault. */
  datatype Result<+T> = Ok(value: T) | Err(fault: Fault) {
    predicate IsFailure() {
      Err?
    }

    function PropagateFailure<U>(): Result<U>
      requires Err?
    {
      Err(fault)
    }

    function Extract(): T
      requires Ok?
    {
      value
    }
  }
}
