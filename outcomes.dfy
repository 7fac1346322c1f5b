/** Error outcomes shared by every component of the plotting core. */
module Outcomes {

  /** The exceptions the plotting functions raise (or let through from
      the helpers they call), each with its message. */
  datatype Error =
    | ValueError(message: string)
    | TypeError(message: string)
    | KeyError(message: string)
      /** the amount/cost table builder refuses a call with neither amounts nor costs */
    | MissingAmountsAndCosts

  datatype Option<+T> = None | Some(value: T)

  datatype Result<+T> = Ok(value: T) | Err(error: Error) {
    predicate IsFailure() { Err? }
    function PropagateFailure<U>(): Result<U>
      requires Err?
    {
      Err(error)
    }
    function Extract(): T
      requires Ok?
    {
      value
    }
  }
}
