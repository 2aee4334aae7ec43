/** Result shapes shared by the modules of the model. */
module Outcomes {

  /** Python's `None` or a value. */
  datatype Option<+T> = None | Some(value: T)

  /** The outcome of a call into code outside the model that may raise:
      it either raises an exception or gives a value. */
  datatype Attempt<+T> = Raises | Gives(value: T)
}
