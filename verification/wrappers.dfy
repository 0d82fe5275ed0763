/** Small failure-carrying datatypes shared by every module of the model. */
module Wrappers {

  /** Python's `None`-or-value. */
  datatype Option<+T> = None | Some(value: T)

  /** The result of a Python call: it either returns a value or raises an
      exception that propagates to the caller. The model does not track which
      exception was raised, only that one escaped. */
  datatype PyResult<+T> = Returned(value: T) | Raised
}
