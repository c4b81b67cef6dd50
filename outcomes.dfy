/** How the modelled Python calls end: they return a value or raise an exception. */
module Outcomes {

  /** Python's `Optional[T]`: `None` or a value. */
  datatype Option<+T> = None | Some(value: T)

  /** The exceptions that escape from the modelled code. */
  datatype Error =
    | KeyError                       // a dictionary lookup of a missing key
    | ValueError                     // `list.remove` of an absent element
    | EngineError(message: string)   // whatever the speech engine raised, re-raised unchanged

  /** The end of one call: `return value` or `raise error`. */
  datatype Outcome<+T> = Return(value: T) | Raise(error: Error)
}
