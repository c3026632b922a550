/** Small shared wrappers: an optional value, and how a Python handler returns. */
module Wrappers {

  datatype Option<+T> = None | Some(value: T)

  /** The Python exceptions that a modelled handler can raise. */
  datatype PyError = TypeError | IndexError | ValueError

  /** A handler either returns normally or raises. */
  datatype Outcome = Completed | Raised(error: PyError)
}
